/** When each step fails, in terms of the scripts that jobs ship and the answers of the instances
    (orchestrator/deployment.go, instance/job.go and the *_step.go files). */
module StepLaws {
  import opened Sequences
  import opened Jobs
  import opened LockGraph
  import opened Constraints
  import opened Errors
  import opened Metadata
  import opened BackupDirectory
  import opened Deployment
  import opened Traces
  import opened Session
  import opened Locking
  import R = RestoreSafety

  /** On every job of every instance that ships the script, the call on it succeeds. */
  ghost predicate ScriptsSucceed(w: World, call: Call, script: Script) {
    forall i, j | 0 <= i < |w.instances| && j in w.instances[i].jobs && script in j.scripts :: !w.fails(call, j)
  }

  lemma AllJobsSucceed(w: World, call: Call)
    ensures AllCallsSucceed(w, call, AllJobs(w.instances)) <==> ScriptsSucceed(w, call, ScriptFor(call))
  {
    if AllCallsSucceed(w, call, AllJobs(w.instances)) {
      forall i, j | 0 <= i < |w.instances| && j in w.instances[i].jobs && ScriptFor(call) in j.scripts
        ensures !w.fails(call, j)
      {
        AllJobsStanding(w.instances, j);
        assert CallSucceeds(w, call, j);
      }
    } else {
      var j :| j in AllJobs(w.instances) && !CallSucceeds(w, call, j);
      AllJobsStanding(w.instances, j);
      var i :| 0 <= i < |w.instances| && j in w.instances[i].jobs;
      assert ScriptFor(call) in j.scripts && w.fails(call, j);
    }
  }

  lemma SameLevels(w: World, call: Call, activity: Activity)
    requires !Cyclic(AllJobs(w.instances), activity)
    ensures AllCallsSucceed(w, call, Flatten(Levels(w, activity))) <==> AllCallsSucceed(w, call, AllJobs(w.instances))
    ensures AllCallsSucceed(w, call, Flatten(Reversed(Levels(w, activity)))) <==>
            AllCallsSucceed(w, call, AllJobs(w.instances))
  {
    LevelsHoldAllJobs(w, activity);
  }

  lemma LockVerdict(w: World, s: State, activity: Activity, kind: Kind)
    ensures RunLock(w, s, activity, kind).Returned?
    ensures RunLock(w, s, activity, kind).error.None? <==>
            !Cyclic(AllJobs(w.instances), activity) &&
            ScriptsSucceed(w, Lock(activity), ScriptFor(Lock(activity)))
  {
    if !Cyclic(AllJobs(w.instances), activity) {
      SameLevels(w, Lock(activity), activity);
      AllJobsSucceed(w, Lock(activity));
    }
  }

  lemma UnlockVerdict(w: World, s: State, activity: Activity, ok: bool)
    ensures RunUnlock(w, s, activity, ok).Returned?
    ensures RunUnlock(w, s, activity, ok).error.None? <==>
            !Cyclic(AllJobs(w.instances), activity) &&
            ScriptsSucceed(w, Unlock(activity, ok), ScriptFor(Unlock(activity, ok)))
  {
    if !Cyclic(AllJobs(w.instances), activity) {
      SameLevels(w, Unlock(activity, ok), activity);
      AllJobsSucceed(w, Unlock(activity, ok));
    }
  }

  /** The lock step of a backup fails exactly on a ring of declarations or when a pre-backup-lock script fails. */
  lemma LockForBackupFails(w: World, s: State)
    requires s.deployment
    ensures RunStep(w, LockForBackup, s).Returned?
    ensures RunStep(w, LockForBackup, s).error.None? <==>
            (forall pairs :: !BackupRing(AllJobs(w.instances), pairs)) &&
            ScriptsSucceed(w, Lock(Backing), PreBackupLock)
  {
    BackupOrderFailsExactly(AllJobs(w.instances));
    LockVerdict(w, s, Backing, LockError);
  }

  /** ... and that of a restore likewise. */
  lemma LockForRestoreFails(w: World, s: State)
    requires s.deployment
    ensures RunStep(w, LockForRestore, s).Returned?
    ensures RunStep(w, LockForRestore, s).error.None? <==>
            (forall pairs :: !RestoreRing(AllJobs(w.instances), pairs)) &&
            ScriptsSucceed(w, Lock(Restoring), PreRestoreLock)
  {
    RestoreOrderFailsExactly(AllJobs(w.instances));
    LockVerdict(w, s, Restoring, Other);
  }

  /** The unlock step of a backup fails exactly on a ring of declarations or when a post-backup-unlock script fails. */
  lemma UnlockAfterBackupFails(w: World, s: State, ok: bool)
    requires s.deployment
    ensures RunStep(w, UnlockAfterBackup(ok), s).Returned?
    ensures RunStep(w, UnlockAfterBackup(ok), s).error.None? <==>
            (forall pairs :: !BackupRing(AllJobs(w.instances), pairs)) &&
            ScriptsSucceed(w, Unlock(Backing, ok), PostBackupUnlock)
  {
    BackupOrderFailsExactly(AllJobs(w.instances));
    UnlockVerdict(w, s, Backing, ok);
  }

  /** ... and that of a restore likewise. */
  lemma UnlockAfterRestoreFails(w: World, s: State)
    requires s.deployment
    ensures RunStep(w, UnlockAfterRestore, s).Returned?
    ensures RunStep(w, UnlockAfterRestore, s).error.None? <==>
            (forall pairs :: !RestoreRing(AllJobs(w.instances), pairs)) &&
            ScriptsSucceed(w, Unlock(Restoring, false), PostRestoreUnlock)
  {
    RestoreOrderFailsExactly(AllJobs(w.instances));
    UnlockVerdict(w, s, Restoring, false);
  }

  /** A call on all jobs beside one with the script succeeds exactly when it does on those with the script. */
  lemma BesideSucceed(w: World, instances: Instances, call: Call, script: Script)
    requires ScriptFor(call) == script && instances == w.instances
    ensures AllCallsSucceed(w, call, JobList(JobsBeside(instances, script))) <==> ScriptsSucceed(w, call, script)
  {
    var places := JobsBeside(instances, script);
    if AllCallsSucceed(w, call, JobList(places)) {
      forall i, j | 0 <= i < |instances| && j in instances[i].jobs && script in j.scripts ensures !w.fails(call, j) {
        HasJobWithIs(script, instances[i]);
        JobsBesideMember(instances, script, Place(i, j));
        var n :| 0 <= n < |places| && places[n] == Place(i, j);
        assert JobList(places)[n] == j;
        assert CallSucceeds(w, call, j);
      }
    } else {
      var j :| j in JobList(places) && !CallSucceeds(w, call, j);
      var n :| 0 <= n < |places| && places[n].job == j;
      JobsBesideMember(instances, script, places[n]);
      assert places[n].instance < |instances| && j in instances[places[n].instance].jobs;
    }
  }

  /** The backup step fails exactly when a backup script fails. */
  lemma BackUpJobsFails(w: World, s: State)
    requires s.deployment
    ensures RunStep(w, BackUpJobs, s).Returned?
    ensures RunStep(w, BackUpJobs, s).error.None? <==> ScriptsSucceed(w, BackUp, BackupScript)
  {
    BesideSucceed(w, w.instances, BackUp, BackupScript);
    var jobs := JobList(JobsBeside(w.instances, BackupScript));
    assert [jobs][..0] == [];
    assert Flatten([jobs]) == jobs;
  }

  lemma RestoreVerdict(w: World)
    ensures RestoreTrace(w, |w.instances|).1 <==> ScriptsSucceed(w, RestoreCall, RestoreScript)
  {
    R.RestoresInOrder(w, |w.instances|);
    assert w.instances[..|w.instances|] == w.instances;
    BesideSucceed(w, w.instances, RestoreCall, RestoreScript);
  }

  /** The restore step fails exactly when a restore script fails. */
  lemma RestoreJobsFails(w: World, s: State)
    requires s.deployment
    ensures RunStep(w, RestoreJobs, s).Returned?
    ensures RunStep(w, RestoreJobs, s).error.None? <==> ScriptsSucceed(w, RestoreCall, RestoreScript)
  {
    RestoreVerdict(w);
  }

  // ---------------------------------------------------------------------------------------------
  // Checks and cleanup

  /** Some job of some instance ships the script. */
  ghost predicate SomeJobHas(instances: Instances, script: Script) {
    exists i, j :: 0 <= i < |instances| && j in instances[i].jobs && script in j.scripts
  }

  lemma AnyWithIs(instances: Instances, script: Script)
    ensures AnyWith(instances, script) <==> SomeJobHas(instances, script)
  {
    if i, j :| 0 <= i < |instances| && j in instances[i].jobs && script in j.scripts {
      HasJobWithIs(script, instances[i]);
    }
    if i :| 0 <= i < |instances| && HasJobWith(script, instances[i]) {
      HasJobWithIs(script, instances[i]);
    }
  }

  /** No instance has an artifact directory, and all can be asked. */
  ghost predicate NoDirectories(w: World, dirs: set<nat>) {
    forall i | 0 <= i < |w.instances| :: i !in dirs && i !in w.unreachable
  }

  /** The checks of a backup pass exactly when some job ships a backup script, all instances answer and have no artifact
      directory, and what the jobs declare runs in no ring. */
  lemma CheckBackupableFails(w: World, s: State)
    requires s.deployment
    ensures RunStep(w, CheckBackupable, s).Returned?
    ensures RunStep(w, CheckBackupable, s).error.None? <==>
            && SomeJobHas(w.instances, BackupScript) && NoDirectories(w, s.dirs)
            && forall pairs :: !BackupRing(AllJobs(w.instances), pairs)
  {
    AnyWithIs(w.instances, BackupScript);
    BackupOrderFailsExactly(AllJobs(w.instances));
  }

  /** Some instance with a restore script has a job with a restore_name. */
  ghost predicate SomeRestoreName(instances: Instances) {
    exists i, j, k :: 0 <= i < |instances| && j in instances[i].jobs && RestoreScript in j.scripts &&
                      k in instances[i].jobs && k.restoreName != ""
  }

  lemma RestoreNameFoundIs(w: World)
    ensures RestoreNameFound(w) <==> SomeRestoreName(w.instances)
  {
    if i, j, k :| 0 <= i < |w.instances| && j in w.instances[i].jobs && RestoreScript in j.scripts &&
                  k in w.instances[i].jobs && k.restoreName != "" {
      HasJobWithIs(RestoreScript, w.instances[i]);
    }
    if i :| 0 <= i < |w.instances| && HasJobWith(RestoreScript, w.instances[i]) && HasRestoreName(w.instances[i]) {
      HasJobWithIs(RestoreScript, w.instances[i]);
    }
  }

  /** Every recorded instance is in the deployment, by name and index. */
  ghost predicate RecordedInstancesPresent(metadata: MetadataFile, instances: Instances) {
    forall e | e in metadata.instances ::
      exists i :: 0 <= i < |instances| && instances[i].name == e.name && instances[i].index == e.index
  }

  lemma MatchesDeploymentIs(metadata: MetadataFile, instances: Instances)
    ensures MatchesDeployment(metadata, Map(instances, NameOf)) <==> RecordedInstancesPresent(metadata, instances)
  {
    forall e | e in metadata.instances
      ensures InstanceName(e.name, e.index) in Map(instances, NameOf) <==>
              exists i :: 0 <= i < |instances| && instances[i].name == e.name && instances[i].index == e.index
    {
      if i :| 0 <= i < |instances| && instances[i].name == e.name && instances[i].index == e.index {
        assert Map(instances, NameOf)[i] == InstanceName(e.name, e.index);
      }
    }
  }

  /** The checks of a restore pass exactly when no restore_name is left, some job ships a restore script, the backup
      was made of instances of this deployment, all instances answer and have no artifact directory, and there is no
      ring. */
  lemma CheckRestorableFails(w: World, s: State)
    requires s.deployment && s.artifact
    ensures RunStep(w, CheckRestorable, s).Returned?
    ensures RunStep(w, CheckRestorable, s).error.None? <==>
            && !SomeRestoreName(w.instances) && SomeJobHas(w.instances, RestoreScript)
            && s.metadata.Some? && RecordedInstancesPresent(s.metadata.value, w.instances)
            && NoDirectories(w, s.dirs)
            && forall pairs :: !RestoreRing(AllJobs(w.instances), pairs)
  {
    RestoreNameFoundIs(w);
    AnyWithIs(w.instances, RestoreScript);
    RestoreOrderFailsExactly(AllJobs(w.instances));
    if s.metadata.Some? {
      MatchesDeploymentIs(s.metadata.value, w.instances);
    }
  }

  /** Cleanup fails exactly when the connection to some instance cannot be cleaned up, or the directory of a marked one
      cannot be removed. */
  lemma CleanUpFails(w: World, s: State)
    requires s.deployment
    ensures RunStep(w, CleanUp, s).Returned?
    ensures RunStep(w, CleanUp, s).error.None? <==>
            forall i | 0 <= i < |w.instances| :: !w.sshFails(i) && !(i in s.marked && w.removeFails(i))
  {
  }

  /** The drain step fails exactly when some download did not end in success. */
  lemma DrainFails(w: World, s: State)
    requires s.deployment && s.artifact
    ensures RunStep(w, DrainArtifacts, s).Returned?
    ensures RunStep(w, DrainArtifacts, s).error.None? <==>
            forall n | 0 <= n < |Drained(w, s.metadata).downloads| :: Drained(w, s.metadata).downloads[n].Done?
  {
  }

  /** A step that needs the deployment or the backup before the session has it is a panic, and nothing else is. */
  lemma PanicsExactly(w: World, step: Step, s: State)
    ensures RunStep(w, step, s).Panicked? <==>
            || (!s.deployment &&
                match step
                case CheckBackupable | LockForBackup | BackUpJobs | UnlockAfterBackup(_) | DrainArtifacts | CleanUp |
                     CheckRestorable | CopyToRemote | LockForRestore | RestoreJobs | UnlockAfterRestore => true
                case _ => false)
            || (!s.artifact && (step == DrainArtifacts || step == CheckRestorable || step == CopyToRemote))
  {
  }

  /** The class of the error of each step that has one of its own. */
  lemma ErrorClasses(w: World, step: Step, s: State)
    requires RunStep(w, step, s).Returned? && RunStep(w, step, s).error.Some?
    ensures RunStep(w, step, s).error.value.Failure?
    ensures var kind := RunStep(w, step, s).error.value.kind;
            && (kind == LockError <==> step == LockForBackup)
            && (kind == UnlockError <==> step.UnlockAfterBackup? || step == UnlockAfterRestore)
            && (kind == CleanupError <==> step == CleanUp)
            && (kind == BackupError <==> step == BackUpJobs)
            && (kind == DrainError <==> step == DrainArtifacts)
            && (kind == ArtifactDirError <==>
                step == CheckBackupable && SomeJobHas(w.instances, BackupScript) && !NoDirectories(w, s.dirs))
  {
    AnyWithIs(w.instances, BackupScript);
  }
}
