/** What whole runs do, in terms of what jobs ship and declare and how instances answer (orchestrator/backuper.go,
    restorer.go). */
module RunLaws {
  import opened Sequences
  import opened Jobs
  import opened LockGraph
  import opened Constraints
  import opened Errors
  import opened Executor
  import opened Checksums
  import opened Metadata
  import opened BackupDirectory
  import opened Transfers
  import opened DrainLog
  import opened DrainRecords
  import opened Artifacts
  import opened Deployment
  import opened Traces
  import opened Session
  import opened Locking
  import opened Workflow
  import opened StepLaws
  import B = BackupRun
  import BS = BackupSafety
  import BO = BackupOutcome
  import R = RestoreRun
  import RS = RestoreSafety

  // ---------------------------------------------------------------------------------------------
  // When runs touch the deployment

  /** When a backup run gets as far as its lock step. */
  lemma ReadyExactly(w: World)
    ensures B.Ready(w) <==>
            && w.found && w.directoryCreated && w.manifestSaved
            && SomeJobHas(w.instances, BackupScript) && NoDirectories(w, w.dirs)
            && forall pairs :: !BackupRing(AllJobs(w.instances), pairs)
  {
    AnyWithIs(w.instances, BackupScript);
    BackupOrderFailsExactly(AllJobs(w.instances));
  }

  /** When a restore run gets as far as its uploads. */
  lemma PermittedExactly(w: World)
    ensures RS.Permitted(w) <==>
            && w.openable && w.metadata.Some? && AllIntact(w.files, w.metadata.value) && w.found
            && !SomeRestoreName(w.instances) && SomeJobHas(w.instances, RestoreScript)
            && RecordedInstancesPresent(w.metadata.value, w.instances) && NoDirectories(w, w.dirs)
            && forall pairs :: !RestoreRing(AllJobs(w.instances), pairs)
  {
    RestoreNameFoundIs(w);
    AnyWithIs(w.instances, RestoreScript);
    RestoreOrderFailsExactly(AllJobs(w.instances));
    if w.metadata.Some? {
      MatchesDeploymentIs(w.metadata.value, w.instances);
    }
  }

  /** A backup run on a deployment with an artifact directory, with an instance that does not answer, without a backup
      script or with a ring of declarations calls nothing, changes no directory and returns an error. */
  lemma BackupStops(w: World, lockFree: bool, visits: seq<Visit>)
    requires B.IsBackupRun(w, lockFree, visits)
    requires || !SomeJobHas(w.instances, BackupScript) || !NoDirectories(w, w.dirs)
             || exists pairs :: BackupRing(AllJobs(w.instances), pairs)
    ensures |visits| > 0 && ErrorsOf(visits) != []
    ensures visits[|visits| - 1].after.trace == [] && visits[|visits| - 1].after.dirs == w.dirs
  {
    ReadyExactly(w);
    BS.UnreadyTouchesNothing(w, lockFree, visits);
    B.BackupRunFacts(w, lockFree, visits);
  }

  /** A restore run with a restore_name left, with instances in the backup that the deployment does not have, with an
      artifact directory or an instance that does not answer, without a restore script or with a ring of declarations
      calls nothing, changes no directory and returns an error. */
  lemma RestoreStops(w: World, visits: seq<Visit>)
    requires R.IsRestoreRun(w, visits)
    requires || SomeRestoreName(w.instances) || !SomeJobHas(w.instances, RestoreScript)
             || (w.metadata.Some? && !RecordedInstancesPresent(w.metadata.value, w.instances))
             || !NoDirectories(w, w.dirs)
             || exists pairs :: RestoreRing(AllJobs(w.instances), pairs)
    ensures |visits| > 0 && ErrorsOf(visits) != []
    ensures visits[|visits| - 1].after.trace == [] && visits[|visits| - 1].after.dirs == w.dirs
  {
    PermittedExactly(w);
    RS.UnpermittedTouchesNothing(w, visits);
    R.RestoreRunFacts(w, visits);
  }

  // ---------------------------------------------------------------------------------------------
  // Backup runs, job by job

  ghost predicate PreBackupLocksSucceed(w: World) {
    ScriptsSucceed(w, Lock(Backing), PreBackupLock)
  }

  ghost predicate BackupScriptsSucceed(w: World) {
    ScriptsSucceed(w, BackUp, BackupScript)
  }

  lemma SuccessIs(w: World)
    ensures B.LocksSucceed(w, false) <==> PreBackupLocksSucceed(w)
    ensures B.BackupsSucceed(w) <==> BackupScriptsSucceed(w)
  {
    AllJobsSucceed(w, Lock(Backing));
    BesideSucceed(w, w.instances, BackUp, BackupScript);
    BS.FlattenOne(JobList(JobsBeside(w.instances, BackupScript)));
  }

  /** A locking run that passes its checks locks each job as often as it stands in the instances ... */
  lemma BackupLocks(w: World, j: Job)
    requires LocksCarriedOut(w, Backing) && B.Ready(w)
    ensures multiset(Begun(Lock(Backing), BS.BackupTrace(w, false)))[j] == Standing(w.instances, j)
  {
    BS.BackupLocksEachOnce(w);
    AllJobsStanding(w.instances, j);
  }

  /** ... and unlocks it as often, telling it whether all pre-backup-lock and all backup scripts succeeded. */
  lemma BackupUnlocks(w: World, ok: bool, j: Job)
    requires LocksCarriedOut(w, Backing) && B.Ready(w)
    ensures multiset(Begun(Unlock(Backing, ok), BS.BackupTrace(w, false)))[j] ==
            if ok == (PreBackupLocksSucceed(w) && BackupScriptsSucceed(w)) then Standing(w.instances, j) else 0
  {
    SuccessIs(w);
    BS.BackupUnlocksEachOnce(w, ok);
    AllJobsStanding(w.instances, j);
  }

  /** It calls backup on the jobs of exactly the instances with a backup script, if all pre-backup-lock scripts
      succeeded. */
  lemma BackupCalls(w: World, j: Job)
    requires CarriedOut(w, BackUp, BackupBatches(w)) && B.Ready(w)
    ensures multiset(Begun(BackUp, BS.BackupTrace(w, false)))[j] ==
            if PreBackupLocksSucceed(w) then StandingBeside(w.instances, BackupScript, j) else 0
  {
    SuccessIs(w);
    BS.BackupRunsEachOnce(w, false);
    JobsBesideStanding(w.instances, BackupScript, j);
  }

  /** No backup script begins if a pre-backup-lock script fails. */
  lemma NoBackupUnlocked(w: World, i: nat, j: Job)
    requires CarriedOut(w, BackUp, BackupBatches(w))
    requires i < |w.instances| && j in w.instances[i].jobs && PreBackupLock in j.scripts && w.fails(Lock(Backing), j)
    ensures Begun(BackUp, BS.BackupTrace(w, false)) == []
  {
    SuccessIs(w);
    if B.Ready(w) {
      BS.BackupRunsEachOnce(w, false);
      assert !PreBackupLocksSucceed(w);
      assert |multiset(Begun(BackUp, BS.BackupTrace(w, false)))| == 0;
    }
  }

  /** It downloads the artifacts of exactly the jobs with a backup script, if all those scripts succeeded. */
  lemma BackupDownloads(w: World, j: Job)
    requires |w.remote| == |KeysToBackup(w.instances)| && Settled(Drained(w, FirstMetadata(w))) && B.Ready(w)
    ensures multiset(Begun(Download, BS.BackupTrace(w, false)))[j] ==
            if PreBackupLocksSucceed(w) && BackupScriptsSucceed(w) && BackupScript in j.scripts
            then Standing(w.instances, j) else 0
  {
    SuccessIs(w);
    BS.DownloadsEachOnce(w, false);
    JobsWithStanding(w.instances, BackupScript, j);
  }

  lemma Declared(w: World, activity: Activity, i: nat, a: Job, k: nat, b: Job)
    requires i < |w.instances| && a in w.instances[i].jobs && k < |w.instances| && b in w.instances[k].jobs
    requires if activity.Backing? then DeclaresForBackup(a, b) else DeclaresForRestore(a, b)
    ensures LocksBefore(w, activity, a, b)
  {
    AllJobsStanding(w.instances, a);
    AllJobsStanding(w.instances, b);
    BackupConstraint(a, b);
    RestoreConstraint(a, b);
  }

  /** Whatever a declares to be locked after it in a backup: its lock does not begin before a's has ended, and a's
      unlock not before its has. */
  lemma DeclaredLocksNest(w: World, ok: bool, i: nat, a: Job, k: nat, b: Job, s: JobSpecifier)
    requires LocksCarriedOut(w, Backing)
    requires i < |w.instances| && a in w.instances[i].jobs && k < |w.instances| && b in w.instances[k].jobs
    requires s in a.backupLockedBefore && s.name == b.name && s.release == b.release
    ensures EndsBeforeBegins(BS.BackupTrace(w, false), Lock(Backing), a, b)
    ensures EndsBeforeBegins(BS.BackupTrace(w, false), Unlock(Backing, ok), b, a)
  {
    Declared(w, Backing, i, a, k, b);
    BS.BackupLocksNest(w, false, a, b);
    BS.BackupUnlocksNest(w, false, ok, a, b);
  }

  /** Cleanup is aimed at exactly the instances with a backup script, once backup scripts were begun. */
  lemma BackupRemovals(w: World, i: nat)
    requires B.Ready(w)
    ensures DirRemoved(i) in BS.BackupTrace(w, false) <==>
            PreBackupLocksSucceed(w) && i < |w.instances| && exists j | j in w.instances[i].jobs ::
              BackupScript in j.scripts
  {
    SuccessIs(w);
    BS.RemovedInBackup(w, false, i);
    if i < |w.instances| {
      HasJobWithIs(BackupScript, w.instances[i]);
    }
  }

  /** Some job on instance i that ships a backup script makes the artifact directory there. */
  ghost predicate MadeDirectory(w: World, i: nat) {
    i < |w.instances| && exists j | j in w.instances[i].jobs :: BackupScript in j.scripts && w.makesDir(Place(i, j))
  }

  lemma MadeByBackupIs(w: World, i: nat)
    ensures i in MadeByBackup(w) <==> MadeDirectory(w, i)
  {
    if i in MadeByBackup(w) {
      var p :| p in JobsWith(w.instances, BackupScript) && w.makesDir(p) && p.instance == i;
      JobsWithMember(w.instances, BackupScript, p);
      assert p == Place(i, p.job);
    }
    if MadeDirectory(w, i) {
      var j :| j in w.instances[i].jobs && BackupScript in j.scripts && w.makesDir(Place(i, j));
      JobsWithMember(w.instances, BackupScript, Place(i, j));
    }
  }

  /** The directories after a backup run: those from before, and those that it made and could not remove. */
  lemma BackupDirectories(w: World, i: nat)
    ensures i in BS.DirsAfter(w, false) <==>
            i in w.dirs || (B.Ready(w) && PreBackupLocksSucceed(w) && MadeDirectory(w, i) && w.removeFails(i))
  {
    SuccessIs(w);
    MadeByBackupIs(w, i);
    BS.BackupLeavesBehind(w, false, i);
  }

  lemma NothingFailsIs(w: World)
    ensures BO.NothingFails(w, false) <==>
            && B.Ready(w) && PreBackupLocksSucceed(w) && BackupScriptsSucceed(w)
            && ScriptsSucceed(w, Unlock(Backing, true), PostBackupUnlock)
            && AllDone(Drained(w, FirstMetadata(w))) && CleansUp(w, With(w.instances, BackupScript))
  {
    SuccessIs(w);
    AllJobsSucceed(w, Unlock(Backing, true));
  }

  /** A backup run returns no error exactly when it passes its checks and no script, download, removal or connection
      fails. */
  lemma BackupSucceedsExactly(w: World, visits: seq<Visit>)
    requires B.IsBackupRun(w, false, visits) && |w.remote| == |KeysToBackup(w.instances)|
    ensures ErrorsOf(visits) == [] <==>
            && B.Ready(w) && PreBackupLocksSucceed(w) && BackupScriptsSucceed(w)
            && ScriptsSucceed(w, Unlock(Backing, true), PostBackupUnlock)
            && (var s := Drained(w, FirstMetadata(w)); forall n | 0 <= n < |s.downloads| :: s.downloads[n].Done?)
            && forall i | 0 <= i < |w.instances| ::
                 !w.sshFails(i) &&
                 !(w.removeFails(i) && exists j | j in w.instances[i].jobs :: BackupScript in j.scripts)
  {
    B.BackupRunFacts(w, false, visits);
    BO.CleanBackupExactly(w, false);
    NothingFailsIs(w);
    BackupCleansUpIs(w);
  }

  lemma BackupCleansUpIs(w: World)
    ensures CleansUp(w, With(w.instances, BackupScript)) <==>
            forall i | 0 <= i < |w.instances| ::
              !w.sshFails(i) && !(w.removeFails(i) && exists j | j in w.instances[i].jobs :: BackupScript in j.scripts)
  {
    forall i | 0 <= i < |w.instances|
      ensures i in With(w.instances, BackupScript) <==> exists j | j in w.instances[i].jobs :: BackupScript in j.scripts
    {
      HasJobWithIs(BackupScript, w.instances[i]);
    }
  }

  /** Nothing happens before what must come first. */
  ghost predicate NothingTooEarly(trace: seq<TraceEvent>) {
    forall p, q | 0 <= p < q < |trace| ::
      && (trace[p].DirRemoved? ==> trace[q].DirRemoved?)
      && (!trace[p].DirRemoved? && !trace[q].DirRemoved? ==>
            && (trace[q].call.Upload? ==> trace[p].call.Upload?)
            && (trace[q].call.Lock? ==> trace[p].call.Upload? || trace[p].call.Lock?)
            && (trace[q].call.BackUp? || trace[q].call.RestoreCall? ==>
                  !trace[p].call.Unlock? && !trace[p].call.Download?)
            && (trace[q].call.Unlock? ==> !trace[p].call.Download?))
  }

  lemma PhasesMean(trace: seq<TraceEvent>)
    requires PhasesInOrder(trace)
    ensures NothingTooEarly(trace)
  {
    forall p, q | 0 <= p < q < |trace| ensures Phase(trace[p]) <= Phase(trace[q]) {
    }
  }

  /** Locks come before backups, backups before unlocks, unlocks before downloads and all calls before removals; in a
      restore uploads come first, and restores are where backups are. */
  lemma RunsInOrder(w: World, lockFree: bool)
    ensures NothingTooEarly(BS.BackupTrace(w, lockFree)) && NothingTooEarly(RS.RestoreRunTrace(w))
  {
    BS.BackupPhases(w, lockFree);
    PhasesMean(BS.BackupTrace(w, lockFree));
    RS.RestorePhases(w);
    PhasesMean(RS.RestoreRunTrace(w));
  }

  /** A backup run without error needs the metadata file that it starts with. */
  lemma CleanNeedsMetadata(w: World, lockFree: bool)
    requires |w.remote| == |KeysToBackup(w.instances)| && B.CleanBackup(w, lockFree)
    ensures w.metadataWritten
  {
    BO.CleanBackupLeaves(w, lockFree);
    BO.SomethingToBackUp(w.instances);
    NoMetadataNoRecord(KeysToBackup(w.instances), w.remote, w.moves, 0);
  }

  // ---------------------------------------------------------------------------------------------
  // Restore runs, job by job

  ghost predicate PreRestoreLocksSucceed(w: World) {
    ScriptsSucceed(w, Lock(Restoring), PreRestoreLock)
  }

  /** The file from which j is restored on instance i is there and can be opened. */
  ghost predicate FileOpens(w: World, i: nat, j: Job) {
    && i < |w.instances| && FileName(RestoreKey(w.instances[i], j)) in w.files
    && w.uploads(Place(i, j)).readable && w.uploads(Place(i, j)).sized
  }

  /** It is copied, and what arrives has the recorded checksum. */
  ghost predicate Arrived(w: World, i: nat, j: Job) {
    && FileOpens(w, i, j) && w.uploads(Place(i, j)).streamed
    && w.metadata.Some? && w.uploads(Place(i, j)).remote.Some?
    && var recorded := Lookup(w.metadata.value, RestoreKey(w.instances[i], j));
       Agree(if recorded.Some? then recorded.value else map[], w.uploads(Place(i, j)).remote.value)
  }

  ghost predicate AllArrive(w: World) {
    forall i, j | 0 <= i < |w.instances| && j in w.instances[i].jobs && RestoreScript in j.scripts :: Arrived(w, i, j)
  }

  lemma ArrivedIs(w: World, i: nat, j: Job)
    requires i < |w.instances|
    ensures UploadSucceeds(w, w.files, w.metadata, Place(i, j)) <==> Arrived(w, i, j)
  {
  }

  lemma UploadsSucceedIs(w: World)
    ensures R.UploadsSucceed(w) <==> AllArrive(w)
  {
    var places := JobsWith(w.instances, RestoreScript);
    if R.UploadsSucceed(w) {
      forall i, j | 0 <= i < |w.instances| && j in w.instances[i].jobs && RestoreScript in j.scripts
        ensures Arrived(w, i, j)
      {
        JobsWithMember(w.instances, RestoreScript, Place(i, j));
        ArrivedIs(w, i, j);
      }
    }
    if AllArrive(w) {
      forall p | p in places ensures UploadSucceeds(w, w.files, w.metadata, p) {
        JobsWithMember(w.instances, RestoreScript, p);
        ArrivedIs(w, p.instance, p.job);
      }
    }
  }

  /** An upload to instance i copied its whole file. */
  ghost predicate CopiedTo(w: World, i: nat) {
    i < |w.instances| && exists j | j in w.instances[i].jobs ::
      RestoreScript in j.scripts && FileOpens(w, i, j) && w.uploads(Place(i, j)).streamed
  }

  /** An upload to instance i got as far as making the directory. */
  ghost predicate ReachedDirectory(w: World, i: nat) {
    i < |w.instances| && exists j | j in w.instances[i].jobs ::
      RestoreScript in j.scripts && FileOpens(w, i, j) &&
      (w.uploads(Place(i, j)).made || w.uploads(Place(i, j)).streamed)
  }

  lemma CopiedToIs(w: World, i: nat)
    ensures i in MarkedByUploads(w, w.files) <==> CopiedTo(w, i)
  {
    if i in MarkedByUploads(w, w.files) {
      var p :| p in JobsWith(w.instances, RestoreScript) && MarksAt(w, w.files, p) && p.instance == i;
      JobsWithMember(w.instances, RestoreScript, p);
      assert p == Place(i, p.job);
    }
    if CopiedTo(w, i) {
      var j :| j in w.instances[i].jobs && RestoreScript in j.scripts && FileOpens(w, i, j) &&
               w.uploads(Place(i, j)).streamed;
      JobsWithMember(w.instances, RestoreScript, Place(i, j));
      assert MarksAt(w, w.files, Place(i, j));
    }
  }

  lemma ReachedDirectoryIs(w: World, i: nat)
    ensures i in MadeByUploads(w, w.files) <==> ReachedDirectory(w, i)
  {
    if i in MadeByUploads(w, w.files) {
      var p :| p in JobsWith(w.instances, RestoreScript) && MakesDirectoryAt(w, w.files, p) && p.instance == i;
      JobsWithMember(w.instances, RestoreScript, p);
      assert p == Place(i, p.job);
    }
    if ReachedDirectory(w, i) {
      var j :| j in w.instances[i].jobs && RestoreScript in j.scripts && FileOpens(w, i, j) &&
               (w.uploads(Place(i, j)).made || w.uploads(Place(i, j)).streamed);
      JobsWithMember(w.instances, RestoreScript, Place(i, j));
      assert MakesDirectoryAt(w, w.files, Place(i, j));
    }
  }

  /** The directories after a restore run: those from before, and those that uploads made, unless a file was copied
      whole to that instance and the directory could be removed. */
  lemma RestoreDirectories(w: World, i: nat)
    ensures i in RS.DirsAfter(w) <==>
            i in w.dirs || (RS.Permitted(w) && ReachedDirectory(w, i) && !(CopiedTo(w, i) && !w.removeFails(i)))
    ensures RS.Permitted(w) ==> (DirRemoved(i) in RS.RestoreRunTrace(w) <==> CopiedTo(w, i))
  {
    CopiedToIs(w, i);
    ReachedDirectoryIs(w, i);
    RS.MarkedIsMade(w, i);
    if RS.Permitted(w) {
      RS.RemovedInTrace(w, i);
      assert i < |w.instances| ==> i !in w.dirs;
    }
  }

  lemma RestoreSuccessIs(w: World)
    ensures RS.LocksSucceed(w) <==> PreRestoreLocksSucceed(w)
  {
    AllJobsSucceed(w, Lock(Restoring));
  }

  lemma UploadsOnce(w: World)
    requires ValidLog(UploadBatches(w), w.log(Upload)) && RS.Permitted(w)
    ensures multiset(Begun(Upload, RS.RestoreRunTrace(w))) == multiset(JobList(JobsWith(w.instances, RestoreScript)))
  {
    var jobs := JobList(JobsWith(w.instances, RestoreScript));
    BegunOnEach(Upload, UploadBatches(w), w.log(Upload));
    BS.FlattenOne(jobs);
    RS.OnceInPart(w, Upload, jobs);
  }

  /** A restore that passes its checks uploads the artifact of exactly the jobs with a restore script. */
  lemma RestoreUploads(w: World, j: Job)
    requires ValidLog(UploadBatches(w), w.log(Upload)) && RS.Permitted(w)
    ensures multiset(Begun(Upload, RS.RestoreRunTrace(w)))[j] ==
            if RestoreScript in j.scripts then Standing(w.instances, j) else 0
  {
    UploadsOnce(w);
    JobsWithStanding(w.instances, RestoreScript, j);
  }

  /** It locks each job as often as it stands in the instances, if all uploads arrived, ... */
  lemma RestoreLocks(w: World, j: Job)
    requires LocksCarriedOut(w, Restoring) && RS.Permitted(w)
    ensures multiset(Begun(Lock(Restoring), RS.RestoreRunTrace(w)))[j] ==
            if AllArrive(w) then Standing(w.instances, j) else 0
  {
    UploadsSucceedIs(w);
    RS.RestoreLocksEachOnce(w);
    AllJobsStanding(w.instances, j);
  }

  /** ... and unlocks it as often. */
  lemma RestoreUnlocks(w: World, j: Job)
    requires LocksCarriedOut(w, Restoring) && RS.Permitted(w)
    ensures multiset(Begun(Unlock(Restoring, false), RS.RestoreRunTrace(w)))[j] ==
            if AllArrive(w) then Standing(w.instances, j) else 0
  {
    UploadsSucceedIs(w);
    RS.RestoreUnlocksEachOnce(w);
    AllJobsStanding(w.instances, j);
  }

  /** No restore script begins if a pre-restore-lock script fails. */
  lemma NoRestoreUnlocked(w: World, i: nat, j: Job)
    requires i < |w.instances| && j in w.instances[i].jobs && PreRestoreLock in j.scripts && w.fails(Lock(Restoring), j)
    ensures Begun(RestoreCall, RS.RestoreRunTrace(w)) == []
  {
    RestoreSuccessIs(w);
    RS.RestoreIsGuarded(w);
    assert !PreRestoreLocksSucceed(w);
  }

  /** If no restore script fails, the loop runs the jobs of all restorable instances. */
  lemma LoopRunsAll(w: World)
    requires ScriptsSucceed(w, RestoreCall, RestoreScript)
    ensures Begun(RestoreCall, RestoreTrace(w, |w.instances|).0) == RS.JobsToRestore(w, |w.instances|)
  {
    RestoreVerdict(w);
    RS.RestoresInOrder(w, |w.instances|);
  }

  lemma AllRestored(w: World)
    requires RS.Permitted(w) && AllArrive(w) && PreRestoreLocksSucceed(w)
    requires ScriptsSucceed(w, RestoreCall, RestoreScript)
    ensures Begun(RestoreCall, RS.RestoreRunTrace(w)) == RS.JobsToRestore(w, |w.instances|)
  {
    UploadsSucceedIs(w);
    RestoreSuccessIs(w);
    LoopRunsAll(w);
    RS.RestoreIsGuarded(w);
  }

  /** If nothing fails, restore is called on the jobs of exactly the instances with a restore script. */
  lemma RestoreCalls(w: World, j: Job)
    requires RS.Permitted(w) && AllArrive(w) && PreRestoreLocksSucceed(w)
    requires ScriptsSucceed(w, RestoreCall, RestoreScript)
    ensures multiset(Begun(RestoreCall, RS.RestoreRunTrace(w)))[j] == StandingBeside(w.instances, RestoreScript, j)
  {
    AllRestored(w);
    assert w.instances[..|w.instances|] == w.instances;
    JobsBesideStanding(w.instances, RestoreScript, j);
  }

  /** Whatever a declares to be locked after it in a restore, nests likewise. */
  lemma DeclaredRestoreLocksNest(w: World, i: nat, a: Job, k: nat, b: Job, s: JobSpecifier)
    requires LocksCarriedOut(w, Restoring)
    requires i < |w.instances| && a in w.instances[i].jobs && k < |w.instances| && b in w.instances[k].jobs
    requires s in a.restoreLockedBefore && s.name == b.name && s.release == b.release
    ensures EndsBeforeBegins(RS.RestoreRunTrace(w), Lock(Restoring), a, b)
    ensures EndsBeforeBegins(RS.RestoreRunTrace(w), Unlock(Restoring, false), b, a)
  {
    Declared(w, Restoring, i, a, k, b);
    RS.RestoreLocksNest(w, a, b);
    RS.RestoreUnlocksNest(w, a, b);
  }

  /** A restore run returns no error exactly when it passes its checks and no upload, script, removal or connection
      fails. */
  lemma RestoreSucceedsExactly(w: World, visits: seq<Visit>)
    requires R.IsRestoreRun(w, visits)
    ensures ErrorsOf(visits) == [] <==>
            && RS.Permitted(w) && AllArrive(w) && PreRestoreLocksSucceed(w)
            && ScriptsSucceed(w, RestoreCall, RestoreScript)
            && ScriptsSucceed(w, Unlock(Restoring, false), PostRestoreUnlock)
            && forall i | 0 <= i < |w.instances| :: !w.sshFails(i) && !(w.removeFails(i) && CopiedTo(w, i))
  {
    R.RestoreRunFacts(w, visits);
    if RS.Permitted(w) {
      CleanCopyIs(w);
      CleansUpIs(w);
    }
  }

  lemma CleansUpIs(w: World)
    ensures CleansUp(w, MarkedByUploads(w, w.files)) <==>
            forall i | 0 <= i < |w.instances| :: !w.sshFails(i) && !(w.removeFails(i) && CopiedTo(w, i))
  {
    forall i | 0 <= i < |w.instances| ensures i in MarkedByUploads(w, w.files) <==> CopiedTo(w, i) {
      CopiedToIs(w, i);
    }
  }

  lemma CleanLockIs(w: World, s: State)
    requires !Cyclic(AllJobs(w.instances), Restoring)
    ensures R.CleanLock(w, s) <==>
            && PreRestoreLocksSucceed(w) && ScriptsSucceed(w, RestoreCall, RestoreScript)
            && ScriptsSucceed(w, Unlock(Restoring, false), PostRestoreUnlock) && CleansUp(w, s.marked)
  {
    LockVerdict(w, s, Restoring, Other);
    UnlockVerdict(w, R.BeforeUnlock(w, s), Restoring, false);
    RestoreVerdict(w);
    MarksStay(w, s);
  }

  lemma MarksStay(w: World, s: State)
    ensures R.BeforeUnlock(w, s).marked == s.marked
  {
  }

  lemma CleanCopyIs(w: World)
    requires !Cyclic(AllJobs(w.instances), Restoring)
    ensures R.CleanCopy(w) <==>
            && AllArrive(w) && PreRestoreLocksSucceed(w) && ScriptsSucceed(w, RestoreCall, RestoreScript)
            && ScriptsSucceed(w, Unlock(Restoring, false), PostRestoreUnlock)
            && CleansUp(w, MarkedByUploads(w, w.files))
  {
    UploadsSucceedIs(w);
    CleanLockIs(w, R.Copied(w));
    assert R.Copied(w).marked == MarkedByUploads(w, w.files);
  }

  // ---------------------------------------------------------------------------------------------
  // Restore scripts run one at a time

  /** A restore script ends right after it began. */
  ghost predicate InPairs(trace: seq<TraceEvent>) {
    forall p | 0 <= p < |trace| && trace[p].CallBegan? ::
      p + 1 < |trace| && trace[p + 1] == CallEnded(trace[p].call, trace[p].job)
  }

  lemma PairsConcat(s: seq<TraceEvent>, t: seq<TraceEvent>)
    requires InPairs(s) && InPairs(t)
    ensures InPairs(s + t)
  {
    forall p | 0 <= p < |s + t| && (s + t)[p].CallBegan?
      ensures p + 1 < |s + t| && (s + t)[p + 1] == CallEnded((s + t)[p].call, (s + t)[p].job)
    {
      if p < |s| {
        assert s[p].CallBegan?;
      } else {
        assert t[p - |s|].CallBegan?;
      }
    }
  }

  lemma {:induction false} JobsInPairs(jobs: seq<Job>)
    ensures InPairs(JobsTrace(jobs))
  {
    if jobs != [] {
      var last := jobs[|jobs| - 1];
      JobsInPairs(jobs[..|jobs| - 1]);
      PairsConcat(JobsTrace(jobs[..|jobs| - 1]), [CallBegan(RestoreCall, last), CallEnded(RestoreCall, last)]);
    }
  }

  lemma {:induction false} RestoresInPairs(w: World, n: nat)
    requires n <= |w.instances|
    ensures InPairs(RestoreTrace(w, n).0)
  {
    if n > 0 {
      RestoresInPairs(w, n - 1);
      JobsInPairs(w.instances[n - 1].jobs);
      PairsConcat(RestoreTrace(w, n - 1).0, JobsTrace(w.instances[n - 1].jobs));
    }
  }

  /** In the trace, a call ends right after it began. */
  ghost predicate OneAtATime(trace: seq<TraceEvent>, call: Call) {
    forall p | 0 <= p < |trace| && trace[p].CallBegan? && trace[p].call == call ::
      p + 1 < |trace| && trace[p + 1] == CallEnded(call, trace[p].job)
  }

  lemma JoinOneAtATime(s: seq<TraceEvent>, t: seq<TraceEvent>, call: Call)
    requires OneAtATime(s, call) && OneAtATime(t, call)
    ensures OneAtATime(Join(s, t), call)
  {
    JoinIs(s, t);
    forall p | 0 <= p < |s + t| && (s + t)[p].CallBegan? && (s + t)[p].call == call
      ensures p + 1 < |s + t| && (s + t)[p + 1] == CallEnded(call, (s + t)[p].job)
    {
      if p < |s| {
        assert s[p].CallBegan?;
      } else {
        assert t[p - |s|].CallBegan?;
      }
    }
  }

  lemma {:induction false} WholeOneAtATime(parts: Parts, call: Call)
    requires Tagged(parts) && OneAtATime(PartFor(parts, call), call)
    ensures OneAtATime(Whole(parts), call)
  {
    if parts.Then? {
      if parts.doing == Making(call) {
        LaterCalls(parts.before, call);
      } else {
        WholeOneAtATime(parts.before, call);
      }
      JoinOneAtATime(Whole(parts.before), parts.events, call);
    }
  }

  /** Over every restore run each restore script ends before the next one begins. */
  lemma RestoresOneAtATime(w: World)
    ensures OneAtATime(RS.RestoreRunTrace(w), RestoreCall)
  {
    if RS.Permitted(w) {
      RS.RestoreTagged(w);
      RS.PartOfIs(w, RestoreCall);
      RestoresInPairs(w, |w.instances|);
      RS.RestoresInOrder(w, |w.instances|);
      WholeOneAtATime(RS.RestoreParts(w), RestoreCall);
    }
  }

  // ---------------------------------------------------------------------------------------------
  // Cleanup that fails

  lemma EdgesToTheEnd(lockFree: bool, step: Step, error: Outcome)
    requires step in B.BackupGraph(lockFree)
    ensures NextStep(B.BackupGraph(lockFree), step, error) == None ==>
              step == AddFinishTime || (step == FindDeployment && error.Some?)
    ensures NextStep(B.BackupGraph(lockFree), step, error) == Some(AddFinishTime) ==> step == CleanUp
  {
    assert B.BackupGraph(lockFree)[step] == B.BackupEdges(lockFree, step);
  }

  lemma FoundNoError(w: World, s: State)
    requires w.found
    ensures StepsIn(w)(FindDeployment, s).Returned? && StepsIn(w)(FindDeployment, s).error == None
  {
  }

  /** Every backup run that found its deployment cleans up, last but one. */
  lemma BackupCleansUp(w: World, lockFree: bool, visits: seq<Visit>) returns (n: nat)
    requires B.IsBackupRun(w, lockFree, visits) && w.found
    ensures n < |visits| && visits[n].step == CleanUp
  {
    B.BackupRunFacts(w, lockFree, visits);
    FoundNoError(w, visits[0].before);
    n := CleansUpBeforeEnd(StepsIn(w), lockFree, visits);
  }

  lemma CleansUpBeforeEnd(run: Semantics, lockFree: bool, visits: seq<Visit>) returns (n: nat)
    requires Linked(run, B.BackupGraph(lockFree), visits) && visits[0].step == FindDeployment
    requires forall m, k | 0 <= m < k < |visits| :: visits[m].step != visits[k].step
    requires run(FindDeployment, visits[0].before).Returned? && run(FindDeployment, visits[0].before).error == None
    ensures n < |visits| && visits[n].step == CleanUp
  {
    var last := |visits| - 1;
    assert run(visits[0].step, visits[0].before) == Returned(visits[0].after, visits[0].error);
    EdgesToTheEnd(lockFree, visits[last].step, visits[last].error);
    n := last - 1;
    EdgesToTheEnd(lockFree, visits[n].step, visits[n].error);
  }

  /** If the connection to some instance cannot be cleaned up, the run returns a cleanup error: exit code bit 16. */
  lemma FailedConnectionShows(w: World, lockFree: bool, visits: seq<Visit>, i: nat)
    requires B.IsBackupRun(w, lockFree, visits) && w.found && i < |w.instances| && w.sshFails(i)
    ensures exists e | e in ErrorsOf(visits) :: e.Failure? && e.kind == CleanupError
    ensures ExitCode(ErrorsOf(visits)) & 16 == 16
  {
    B.BackupRunFacts(w, lockFree, visits);
    var n := BackupCleansUp(w, lockFree, visits);
    var s := visits[n].before;
    assert StepsIn(w)(CleanUp, s) == Returned(visits[n].after, visits[n].error);
    assert s.deployment;
    CleanUpFails(w, s);
    ErrorsAre(visits);
    var e := visits[n].error.value;
    ErrorClasses(w, CleanUp, s);
    assert e in ErrorsOf(visits);
    ExitCodeBits(ErrorsOf(visits));
  }
}
