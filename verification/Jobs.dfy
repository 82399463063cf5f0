/** The jobs of a deployment as the orchestrator sees them (orchestrator/instance.go, instance/job.go). */
module Jobs {
  datatype JobSpecifier = JobSpecifier(name: string, release: string)

  /** Which of the two activities locks the jobs, and hence which constraints apply. */
  datatype Activity = Backing | Restoring

  /** The scripts a job may ship; a job without a script succeeds at that call without doing anything. */
  datatype Script = PreBackupLock | BackupScript | PostBackupUnlock | PreRestoreLock | RestoreScript | PostRestoreUnlock

  datatype Job = Job(
    name: string,
    release: string,
    instance: string,
    scripts: set<Script>,
    backupLockedBefore: seq<JobSpecifier>,
    restoreLockedBefore: seq<JobSpecifier>,
    restoreName: string,
    backupOneRestoreAll: bool,
    onBootstrapNode: bool)

  /** An instance of the deployment with the jobs found on it (instance/deployed_instance.go). */
  datatype Instance = Instance(name: string, index: string, id: string, jobs: seq<Job>)

  /** What identifies a job: its name and the instance it lives on. */
  datatype JobKey = JobKey(name: string, instance: string)

  function Key(job: Job): JobKey {
    JobKey(job.name, job.instance)
  }

  predicate SameJob(left: Job, right: Job) {
    left.name == right.name && left.instance == right.instance
  }

  /** The specifiers of the jobs that must be locked after the given one. */
  function Before(activity: Activity, job: Job): seq<JobSpecifier> {
    match activity
    case Backing => job.backupLockedBefore
    case Restoring => job.restoreLockedBefore
  }

  predicate Matches(job: Job, specifier: JobSpecifier) {
    job.name == specifier.name && job.release == specifier.release
  }

  /** a carries a constraint that says b must be locked after it. */
  predicate MustLockBefore(activity: Activity, a: Job, b: Job) {
    exists s | s in Before(activity, a) :: Matches(b, s)
  }
}
