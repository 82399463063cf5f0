/** One concrete deployment: a round trip that succeeds, and runs that do less than the program seems to promise. */
module Findings {
  import opened Sequences
  import opened Jobs
  import opened LockGraph
  import opened Metadata
  import opened BackupDirectory
  import opened Artifacts
  import opened Transfers
  import opened Deployment
  import opened Traces
  import opened Session
  import opened Worlds
  import opened BackupRun
  import opened BackupOutcome
  import opened EndToEnd
  import R = RestoreRun
  import S = RestoreSafety

  const REDIS := Job("redis", "redis-release", "redis/0", {BackupScript, RestoreScript}, [], [], "", false, true)

  const DEPLOYMENT := [Instance("redis", "0", "f3a1", [REDIS])]

  /** What redis backs up: one file. */
  const DUMP := [TarEntry("dump.rdb", false, "c0ffee")]

  /** One redis instance; no script fails, and each upload ends as given. */
  ghost function RedisWorld(finish: WriteResult, upload: UploadFaults): World {
    World(DEPLOYMENT, true, {}, {}, (_, _) => false, _ => true, _ => [], _ => [], _ => false, _ => false,
          true, true, true, [DUMP], [], finish, true, map[], None, _ => upload)
  }

  /** The backup of this deployment, one download after the other. */
  ghost function RedisBackup(finish: WriteResult, upload: UploadFaults): World {
    Undisturbed(RedisWorld(finish, upload))
  }

  /** The restore of what that backup left. */
  ghost function RedisRestore(upload: UploadFaults): World {
    var backup := RedisBackup(Written, upload);
    backup.(files := BackupEnd(backup, false).files, metadata := BackupEnd(backup, false).metadata)
  }

  lemma NoConstraints(activity: Activity)
    ensures !Cyclic(AllJobs(DEPLOYMENT), activity)
  {
    var jobs := AllJobs(DEPLOYMENT);
    var lists := Map(DEPLOYMENT, JobsOf);
    assert lists == [[REDIS]] && lists[..0] == [];
    assert jobs == Flatten(lists[..0]) + lists[0];
    assert jobs == [REDIS];
    forall k, l ensures !Edge(jobs, activity, k, l) {
      assert Before(activity, REDIS) == [];
    }
    forall p: seq<JobKey> | |p| > 1 ensures !Chain(jobs, activity, p) {
      assert !Edge(jobs, activity, p[0], p[1]);
    }
  }

  lemma RedisHas(script: Script)
    requires script in REDIS.scripts
    ensures AnyWith(DEPLOYMENT, script) && Place(0, REDIS) in JobsWith(DEPLOYMENT, script)
  {
    assert REDIS in DEPLOYMENT[0].jobs && HasScript(script, REDIS);
    assert HasJobWith(script, DEPLOYMENT[0]);
    JobsWithMember(DEPLOYMENT, script, Place(0, REDIS));
  }

  lemma FilterOne<T>(x: T, p: T -> bool)
    requires p(x)
    ensures Filter([x], p) == [x]
  {
    assert [x][..0] == [];
  }

  lemma OneJobWith(instance: Instance, job: Job, script: Script)
    requires instance.jobs == [job] && HasScript(script, job)
    ensures JobsWith([instance], script) == [Place(0, job)]
  {
    FilterOne(job, ScriptOf(script));
    assert [instance][..0] == [];
  }

  lemma OneKey(instance: Instance, job: Job)
    requires instance.jobs == [job] && HasScript(BackupScript, job)
    ensures KeysToBackup([instance]) == [BackupKey(instance, job)]
  {
    OneJobWith(instance, job, BackupScript);
  }

  lemma OneArtifact()
    ensures KeysToBackup(DEPLOYMENT) == [Default("redis", "0", "redis")]
  {
    OneKey(DEPLOYMENT[0], REDIS);
  }

  lemma RedisIsFaultless(finish: WriteResult, upload: UploadFaults)
    ensures Faultless(RedisWorld(finish, upload))
  {
    NoConstraints(Backing);
    RedisHas(BackupScript);
    OneArtifact();
  }

  /** These backups return no error, exit code 0.  The one leaves no valid backup; the other one that is valid and finds
      nothing of what was backed up. */
  lemma SilentlyLostBackup(upload: UploadFaults)
    ensures var lost := RedisBackup(Broken(None), upload);
            Possible(lost) && CleanBackup(lost, false) && !ValidBackup(BackupEnd(lost, false))
    ensures var truncated := RedisBackup(Broken(Some(NOTHING_RECORDED)), upload);
            && Possible(truncated) && CleanBackup(truncated, false)
            && ValidBackup(BackupEnd(truncated, false)) && !CompleteBackup(truncated, BackupEnd(truncated, false))
  {
    RedisIsFaultless(Broken(None), upload);
    LostFinishTimeIsSilent(RedisWorld(Broken(None), upload), false);
    RedisIsFaultless(Broken(Some(NOTHING_RECORDED)), upload);
    LostFinishTimeIsSilent(RedisWorld(Broken(Some(NOTHING_RECORDED)), upload), false);
  }

  lemma RedisBackupIsGood(upload: UploadFaults)
    ensures GoodBackup(RedisBackup(Written, upload), false)
    ensures Restores(RedisRestore(upload), RedisBackup(Written, upload), false)
    ensures Possible(RedisRestore(upload))
  {
    RedisIsFaultless(Written, upload);
    FaultlessIsGood(RedisWorld(Written, upload), false);
    SamePossible(RedisBackup(Written, upload), RedisRestore(upload));
  }

  lemma RedisSource(upload: UploadFaults)
    ensures IsSource(DEPLOYMENT, Place(0, REDIS), 0)
  {
    OneArtifact();
  }

  lemma DumpChecksum()
    ensures TarChecksum(DUMP) == map["dump.rdb" := "c0ffee"]
  {
    assert DUMP[..0] == [];
  }

  /** Round trip: the restore is possible, and its upload succeeds exactly when the dump arrives. */
  lemma RedisRoundTrip(upload: UploadFaults)
    ensures Possible(RedisRestore(upload)) && GoodBackup(RedisBackup(Written, upload), false)
    ensures var w := RedisRestore(upload);
            UploadSucceeds(w, w.files, w.metadata, Place(0, REDIS)) <==>
              upload.readable && upload.sized && upload.streamed && upload.remote == Some(map["dump.rdb" := "c0ffee"])
  {
    RedisBackupIsGood(upload);
    RedisSource(upload);
    RedisFields(upload);
    UploadSucceedsExactly(RedisRestore(upload), RedisBackup(Written, upload), false, Place(0, REDIS), 0);
    DumpChecksum();
  }

  lemma RedisFields(upload: UploadFaults)
    ensures RedisBackup(Written, upload).remote == [DUMP]
    ensures var w := RedisRestore(upload);
            && w.instances == DEPLOYMENT && w.dirs == {} && w.unreachable == {}
            && w.uploads(Place(0, REDIS)) == upload
  {
  }

  lemma NothingInTheWay(w: World)
    requires w.instances == DEPLOYMENT && w.dirs == {} && w.unreachable == {}
    ensures !RestoreNameFound(w) && !DirProblem(w, w.dirs)
  {
  }

  lemma RedisIsPermitted(upload: UploadFaults)
    ensures S.Permitted(RedisRestore(upload))
  {
    RedisBackupIsGood(upload);
    NoConstraints(Restoring);
    RedisHas(RestoreScript);
    RedisFields(upload);
    NothingInTheWay(RedisRestore(upload));
    UnchangedDeploymentIsPermitted(RedisRestore(upload), RedisBackup(Written, upload), false);
  }

  const BROKEN_OFF := UploadFaults(true, true, true, false, None)

  lemma RedisMakesDirectory()
    ensures 0 in MadeByUploads(RedisRestore(BROKEN_OFF), RedisRestore(BROKEN_OFF).files)
    ensures 0 !in MarkedByUploads(RedisRestore(BROKEN_OFF), RedisRestore(BROKEN_OFF).files)
  {
    var w := RedisRestore(BROKEN_OFF);
    RedisBackupIsGood(BROKEN_OFF);
    RedisSource(BROKEN_OFF);
    RestoreFindsSource(w, RedisBackup(Written, BROKEN_OFF), false, Place(0, REDIS), 0);
    RedisHas(RestoreScript);
    assert MakesDirectoryAt(w, w.files, Place(0, REDIS));
  }

  /** This restore of a good backup, whose upload breaks off after making the remote directory, never attempts to remove
      it. */
  lemma LeakedDirectory()
    ensures var w := RedisRestore(BROKEN_OFF);
            && Possible(w) && S.Permitted(w) && 0 in MadeByUploads(w, w.files) && 0 !in w.dirs
            && DirRemoved(0) !in R.RestoreEnd(w).trace && 0 in R.RestoreEnd(w).dirs
  {
    var w := RedisRestore(BROKEN_OFF);
    RedisBackupIsGood(BROKEN_OFF);
    RedisIsPermitted(BROKEN_OFF);
    RedisMakesDirectory();
    S.RemovedInTrace(w, 0);
    S.RestoreCleansUpExactly(w, 0);
    S.RestoreTraceIs(w);
  }
}
