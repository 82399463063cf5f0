/** Backup and restore together: what an error-free backup run left behind is what a restore of the same deployment
    accepts, matches and compares its uploads against. */
module EndToEnd {
  import opened Sequences
  import opened Jobs
  import opened LockGraph
  import opened Checksums
  import opened Metadata
  import opened BackupDirectory
  import opened Artifacts
  import opened Transfers
  import opened Deployment
  import opened Session
  import opened BackupRun
  import opened BackupOutcome
  import R = RestoreRun
  import S = RestoreSafety

  // ---------------------------------------------------------------------------------------------
  // The instances named in the metadata

  /** Every instance entry belongs to one of the artifacts. */
  ghost predicate Named(artifacts: seq<ArtifactKey>, instances: seq<InstanceEntry>) {
    forall k | 0 <= k < |instances| ::
      exists i | 0 <= i < |artifacts| ::
        artifacts[i].Default? && artifacts[i].instance == instances[k].name && artifacts[i].index == instances[k].index
  }

  lemma AddKeepsNamed(artifacts: seq<ArtifactKey>, file: MetadataFile, i: nat, checksum: Checksum)
    requires i < |artifacts| && Named(artifacts, file.instances)
    ensures Named(artifacts, Add(file, artifacts[i], checksum).instances)
  {
    if artifacts[i].Default? {
      AddToNames(file.instances, artifacts[i].instance, artifacts[i].index,
                 ArtifactMetadata(artifacts[i].name, checksum));
    }
  }

  lemma PlayKeepsNamed(artifacts: seq<ArtifactKey>, remote: seq<seq<TarEntry>>, s: Drain, move: Move)
    requires |s.downloads| == |artifacts| == |remote|
    requires !s.broken && s.metadata.Some? ==> Named(artifacts, s.metadata.value.instances)
    ensures var s' := Play(artifacts, remote, s, move);
            !s'.broken && s'.metadata.Some? ==> Named(artifacts, s'.metadata.value.instances)
  {
    var i := move.task;
    if i < |artifacts| && s.downloads[i].Recording? && s.metadata.Some? && !s.broken {
      AddKeepsNamed(artifacts, s.metadata.value, i, s.downloads[i].local);
    }
  }

  lemma {:induction false} AlwaysNamed(artifacts: seq<ArtifactKey>, remote: seq<seq<TarEntry>>,
                                       metadata: Option<MetadataFile>, moves: seq<Move>)
    requires |artifacts| == |remote| && metadata in [None, Some(NOTHING_RECORDED)]
    ensures var s := PlayAll(artifacts, remote, Start(artifacts, metadata), moves);
            !s.broken && s.metadata.Some? ==> Named(artifacts, s.metadata.value.instances)
  {
    if moves != [] {
      var init := moves[..|moves| - 1];
      AlwaysNamed(artifacts, remote, metadata, init);
      PlayKeepsNamed(artifacts, remote, PlayAll(artifacts, remote, Start(artifacts, metadata), init),
                     moves[|moves| - 1]);
    }
  }

  lemma KeyOfInstance(instances: Instances, i: nat)
    requires i < |KeysToBackup(instances)| && KeysToBackup(instances)[i].Default?
    ensures var key := KeysToBackup(instances)[i];
            InstanceName(key.instance, key.index) in Map(instances, NameOf)
  {
    var p := JobsWith(instances, BackupScript)[i];
    JobsWithMember(instances, BackupScript, p);
    assert Map(instances, NameOf)[p.instance] == InstanceName(instances[p.instance].name, instances[p.instance].index);
  }

  lemma NamedMatches(instances: Instances, metadata: MetadataFile)
    requires Named(KeysToBackup(instances), metadata.instances)
    ensures MatchesDeployment(metadata, Map(instances, NameOf))
  {
    forall e | e in metadata.instances ensures InstanceName(e.name, e.index) in Map(instances, NameOf) {
      var k :| 0 <= k < |metadata.instances| && metadata.instances[k] == e;
      var keys := KeysToBackup(instances);
      var i :| 0 <= i < |keys| && keys[i].Default? && keys[i].instance == e.name && keys[i].index == e.index;
      KeyOfInstance(instances, i);
    }
  }

  // ---------------------------------------------------------------------------------------------
  // The files of a backup

  /** Every file belongs to one of the artifacts. */
  ghost predicate Owned(artifacts: seq<ArtifactKey>, files: Files) {
    forall f | f in files :: exists i | 0 <= i < |artifacts| :: FileName(artifacts[i]) == f
  }

  lemma PlayKeepsOwned(artifacts: seq<ArtifactKey>, remote: seq<seq<TarEntry>>, s: Drain, move: Move)
    requires |s.downloads| == |artifacts| == |remote| && Owned(artifacts, s.files)
    ensures Owned(artifacts, Play(artifacts, remote, s, move).files)
  {
    var s' := Play(artifacts, remote, s, move);
    forall f | f in s'.files ensures exists i | 0 <= i < |artifacts| :: FileName(artifacts[i]) == f {
      assert f in s.files || f == FileName(artifacts[move.task]);
    }
  }

  lemma {:induction false} AlwaysOwned(artifacts: seq<ArtifactKey>, remote: seq<seq<TarEntry>>,
                                       metadata: Option<MetadataFile>, moves: seq<Move>)
    requires |artifacts| == |remote|
    ensures Owned(artifacts, PlayAll(artifacts, remote, Start(artifacts, metadata), moves).files)
  {
    if moves != [] {
      var init := moves[..|moves| - 1];
      AlwaysOwned(artifacts, remote, metadata, init);
      PlayKeepsOwned(artifacts, remote, PlayAll(artifacts, remote, Start(artifacts, metadata), init),
                     moves[|moves| - 1]);
    }
  }

  /** The artifact shares its file with one that is backed up. */
  ghost predicate SharesFile(instances: Instances, key: ArtifactKey) {
    exists n | 0 <= n < |KeysToBackup(instances)| :: FileName(KeysToBackup(instances)[n]) == FileName(key)
  }

  /** No two artifacts share a file, and what is restored shares one only with what it is restored from. */
  ghost predicate FilesApart(instances: Instances) {
    var keys := KeysToBackup(instances);
    && (forall i, j | 0 <= i < |keys| && 0 <= j < |keys| && SameFile(keys, i, j) :: i == j)
    && forall p, n | p in JobsWith(instances, RestoreScript) && 0 <= n < |keys| ::
         FileName(keys[n]) == FileName(KeyToRestore(instances, p)) ==> keys[n] == KeyToRestore(instances, p)
  }

  /** Identifiers that are well named are enough for that. */
  ghost predicate WellNamedDeployment(instances: Instances) {
    && (forall n | 0 <= n < |KeysToBackup(instances)| :: WellNamed(KeysToBackup(instances)[n]))
    && forall p | p in JobsWith(instances, RestoreScript) :: WellNamed(KeyToRestore(instances, p))
  }

  lemma WellNamedFilesApart(instances: Instances)
    requires WellNamedDeployment(instances) && NoDuplicates(KeysToBackup(instances))
    ensures FilesApart(instances)
  {
    var keys := KeysToBackup(instances);
    forall i, j | 0 <= i < |keys| && 0 <= j < |keys| && SameFile(keys, i, j) ensures i == j {
      WellNamedFilesDiffer(keys[i], keys[j]);
    }
    forall p, n | p in JobsWith(instances, RestoreScript) && 0 <= n < |keys| &&
                  FileName(keys[n]) == FileName(KeyToRestore(instances, p))
      ensures keys[n] == KeyToRestore(instances, p)
    {
      WellNamedFilesDiffer(keys[n], KeyToRestore(instances, p));
    }
  }

  /** The names of a deployment make its identifiers well named: no dash in instance names and indexes, and no job that
      looks like a custom artifact. */
  lemma NamesAreWellNamed(instances: Instances)
    requires forall i, j | 0 <= i < |instances| && j in instances[i].jobs ::
               && '-' !in instances[i].name && '-' !in instances[i].index && !LooksCustom(j.name)
               && (j.restoreName == "" || j.backupOneRestoreAll)
    ensures WellNamedDeployment(instances)
  {
    forall n | 0 <= n < |KeysToBackup(instances)| ensures WellNamed(KeysToBackup(instances)[n]) {
      var p := JobsWith(instances, BackupScript)[n];
      JobsWithMember(instances, BackupScript, p);
      BackupKeyWellNamed(instances[p.instance], p.job);
    }
    forall p | p in JobsWith(instances, RestoreScript) ensures WellNamed(KeyToRestore(instances, p)) {
      JobsWithMember(instances, RestoreScript, p);
      BackupKeyWellNamed(instances[p.instance], p.job);
    }
  }

  lemma FilesApartAgree(instances: Instances, remote: seq<seq<TarEntry>>)
    requires FilesApart(instances) && |remote| == |KeysToBackup(instances)|
    ensures SharedFilesAgree(KeysToBackup(instances), remote)
  {
  }

  /** In a well-named deployment with distinct identifiers no two artifacts share a file, whatever they hold. */
  lemma WellNamedFilesAgree(instances: Instances, remote: seq<seq<TarEntry>>)
    requires WellNamedDeployment(instances) && NoDuplicates(KeysToBackup(instances))
    requires |remote| == |KeysToBackup(instances)|
    ensures SharedFilesAgree(KeysToBackup(instances), remote)
  {
    WellNamedFilesApart(instances);
    FilesApartAgree(instances, remote);
  }

  // ---------------------------------------------------------------------------------------------
  // A restore of what a backup left

  /** A backup run without errors, its last metadata write included, and artifacts sharing a file only if they agree. */
  ghost predicate GoodBackup(w: World, lockFree: bool) {
    && Possible(w) && CleanBackup(w, lockFree) && w.finishWrite.Written?
    && SharedFilesAgree(KeysToBackup(w.instances), w.remote)
  }

  /** Every deployment that passes the checks has a good backup, whatever its artifacts hold. */
  lemma FaultlessIsGood(w: World, lockFree: bool)
    requires Faultless(w) && w.finishWrite.Written? && SharedFilesAgree(KeysToBackup(w.instances), w.remote)
    ensures GoodBackup(Undisturbed(w), lockFree)
  {
    FaultlessIsClean(w, lockFree);
  }

  /** The restore works on the untouched backup and on an unchanged deployment. */
  ghost predicate Restores(restore: World, backup: World, lockFree: bool) {
    && restore.instances == backup.instances
    && restore.openable && restore.found
    && restore.files == BackupEnd(backup, lockFree).files && restore.metadata == BackupEnd(backup, lockFree).metadata
  }

  lemma NotBroken(artifacts: seq<ArtifactKey>, remote: seq<seq<TarEntry>>, s: Drain)
    requires |s.downloads| == |artifacts| == |remote| && DrainInv(artifacts, remote, s) && AllDone(s)
    ensures !s.broken
  {
  }

  lemma BackupNames(w: World, lockFree: bool)
    requires GoodBackup(w, lockFree)
    ensures var end := BackupEnd(w, lockFree);
            end.metadata.Some? && Named(KeysToBackup(w.instances), end.metadata.value.instances)
  {
    CleanBackupLeaves(w, lockFree);
    CleanBackupIsComplete(w, lockFree);
    AlwaysNamed(KeysToBackup(w.instances), w.remote, FirstMetadata(w), w.moves);
    AlwaysDrainInv(KeysToBackup(w.instances), w.remote, FirstMetadata(w), w.moves);
    NotBroken(KeysToBackup(w.instances), w.remote, Drained(w, FirstMetadata(w)));
  }

  /** The restore finds the backup valid and made of this deployment. */
  lemma RestoreAcceptsBackup(restore: World, backup: World, lockFree: bool)
    requires GoodBackup(backup, lockFree) && Restores(restore, backup, lockFree)
    ensures R.BackupValid(restore)
    ensures MatchesDeployment(restore.metadata.value, Map(restore.instances, NameOf))
  {
    CleanBackupIsComplete(backup, lockFree);
    BackupNames(backup, lockFree);
    NamedMatches(backup.instances, restore.metadata.value);
  }

  /** So only restore_name, missing restore scripts, an existing directory or a cycle can stop the restore before its
      uploads. */
  lemma UnchangedDeploymentIsPermitted(restore: World, backup: World, lockFree: bool)
    requires GoodBackup(backup, lockFree) && Restores(restore, backup, lockFree)
    ensures S.Permitted(restore) <==>
            && !RestoreNameFound(restore) && AnyWith(restore.instances, RestoreScript)
            && !DirProblem(restore, restore.dirs) && !Cyclic(AllJobs(restore.instances), Restoring)
  {
    RestoreAcceptsBackup(restore, backup, lockFree);
  }

  /** The n-th artifact of the backup is the one from which the job at p is restored. */
  ghost predicate IsSource(instances: Instances, p: Place, n: nat) {
    && n < |KeysToBackup(instances)| && p.instance < |instances|
    && KeysToBackup(instances)[n] == RestoreKey(instances[p.instance], p.job)
  }

  /** A job with a backup script and without restore_name is its own source. */
  lemma OwnSource(instances: Instances, p: Place) returns (n: nat)
    requires p in JobsWith(instances, BackupScript) && p.job.restoreName == "" && !p.job.backupOneRestoreAll
    ensures IsSource(instances, p, n) && JobsWith(instances, BackupScript)[n] == p
  {
    n :| 0 <= n < |JobsWith(instances, BackupScript)| && JobsWith(instances, BackupScript)[n] == p;
    JobsWithMember(instances, BackupScript, p);
    RestoresOwnBackupExactly(instances[p.instance], p.job);
  }

  /** The source of a backup-one-restore-all job, on whichever node, is its bootstrap node. */
  lemma BootstrapSource(instances: Instances, p: Place, bootstrap: Place) returns (n: nat)
    requires p.instance < |instances| && p.job.backupOneRestoreAll
    requires bootstrap in JobsWith(instances, BackupScript)
    requires bootstrap.job.backupOneRestoreAll && bootstrap.job.onBootstrapNode
    requires p.job.name == bootstrap.job.name && p.job.release == bootstrap.job.release
    ensures IsSource(instances, p, n) && JobsWith(instances, BackupScript)[n] == bootstrap
  {
    n :| 0 <= n < |JobsWith(instances, BackupScript)| && JobsWith(instances, BackupScript)[n] == bootstrap;
    JobsWithMember(instances, BackupScript, bootstrap);
    RestoresBootstrapBackup(instances[p.instance], p.job, instances[bootstrap.instance], bootstrap.job);
  }

  /** A job is restored from the file that holds what its source backed up, and finds the checksum recorded for it. */
  lemma RestoreFindsSource(restore: World, backup: World, lockFree: bool, p: Place, n: nat)
    requires GoodBackup(backup, lockFree) && Restores(restore, backup, lockFree) && IsSource(backup.instances, p, n)
    ensures n < |backup.remote| && restore.metadata.Some?
    ensures Lookup(restore.metadata.value, UploadKey(restore, p)) == Some(TarChecksum(backup.remote[n]))
    ensures Recomputed(restore.files, UploadKey(restore, p)) == Some(TarChecksum(backup.remote[n]))
  {
    CleanBackupIsComplete(backup, lockFree);
  }

  /** The copy of the local file completes, and what arrives has the checksum of the given content. */
  ghost predicate Delivers(faults: UploadFaults, content: seq<TarEntry>) {
    faults.readable && faults.sized && faults.streamed && faults.remote == Some(TarChecksum(content))
  }

  /** The upload of a job with a source succeeds exactly when all that its source backed up arrives. */
  lemma UploadSucceedsExactly(restore: World, backup: World, lockFree: bool, p: Place, n: nat)
    requires GoodBackup(backup, lockFree) && Restores(restore, backup, lockFree) && IsSource(backup.instances, p, n)
    ensures n < |backup.remote|
    ensures UploadSucceeds(restore, restore.files, restore.metadata, p) <==>
            Delivers(restore.uploads(p), backup.remote[n])
  {
    RestoreFindsSource(restore, backup, lockFree, p, n);
    UploadedExactly(restore.files, restore.metadata.value, UploadKey(restore, p), restore.uploads(p), backup.remote[n]);
  }

  lemma UploadedExactly(files: Files, metadata: MetadataFile, key: ArtifactKey, faults: UploadFaults,
                        content: seq<TarEntry>)
    requires Lookup(metadata, key) == Some(TarChecksum(content)) && Recomputed(files, key).Some?
    ensures Uploaded(files, Some(metadata), key, faults) <==> Delivers(faults, content)
  {
    TarChecksumNoEmptyDigest(content);
    if faults.remote.Some? {
      AgreeIsEqual(TarChecksum(content), faults.remote.value);
    }
  }

  ghost predicate HasSource(instances: Instances, p: Place) {
    exists n: nat :: IsSource(instances, p, n)
  }

  lemma GoodBackupOwned(w: World, lockFree: bool)
    requires GoodBackup(w, lockFree)
    ensures Owned(KeysToBackup(w.instances), BackupEnd(w, lockFree).files)
  {
    CleanBackupLeaves(w, lockFree);
    AlwaysOwned(KeysToBackup(w.instances), w.remote, FirstMetadata(w), w.moves);
  }

  lemma GoodBackupRecords(w: World, lockFree: bool, key: ArtifactKey)
    requires GoodBackup(w, lockFree)
    ensures var end := BackupEnd(w, lockFree);
            && end.metadata.Some?
            && (Lookup(end.metadata.value, key).Some? ==> key in KeysToBackup(w.instances))
  {
    CleanBackupLeaves(w, lockFree);
    CleanBackupIsComplete(w, lockFree);
    AlwaysDrainInv(KeysToBackup(w.instances), w.remote, FirstMetadata(w), w.moves);
    NotBroken(KeysToBackup(w.instances), w.remote, Drained(w, FirstMetadata(w)));
    LookupIsRecorded(BackupEnd(w, lockFree).metadata.value, key);
  }

  lemma GoodBackupFiles(w: World, lockFree: bool, key: ArtifactKey)
    requires GoodBackup(w, lockFree)
    ensures FileName(key) in BackupEnd(w, lockFree).files <==> SharesFile(w.instances, key)
  {
    GoodBackupOwned(w, lockFree);
    CleanBackupIsComplete(w, lockFree);
    if SharesFile(w.instances, key) {
      var n :| 0 <= n < |KeysToBackup(w.instances)| && FileName(KeysToBackup(w.instances)[n]) == FileName(key);
      assert Recomputed(BackupEnd(w, lockFree).files, KeysToBackup(w.instances)[n]).Some?;
    }
  }

  /** Whatever happens, the upload of this identifier fails. */
  ghost predicate AlwaysFails(files: Files, metadata: Option<MetadataFile>, key: ArtifactKey) {
    forall faults :: !Uploaded(files, metadata, key, faults)
  }

  /** An artifact without a record can be uploaded, namely when nothing arrives, exactly when there is a file. */
  lemma UnrecordedFailsExactly(files: Files, metadata: MetadataFile, key: ArtifactKey)
    requires Lookup(metadata, key) == None
    ensures AlwaysFails(files, Some(metadata), key) <==> FileName(key) !in files
  {
    if FileName(key) in files {
      assert Uploaded(files, Some(metadata), key, UploadFaults(true, true, true, true, Some(map[])));
    }
  }

  /** A job without a source has no record.  Its upload fails whatever happens exactly when none of the artifacts that
      were backed up has its file. */
  lemma SourcelessFails(restore: World, backup: World, lockFree: bool, p: Place)
    requires GoodBackup(backup, lockFree) && Restores(restore, backup, lockFree)
    requires p.instance < |restore.instances| && !HasSource(backup.instances, p)
    ensures AlwaysFails(restore.files, restore.metadata, UploadKey(restore, p)) <==>
            !SharesFile(backup.instances, UploadKey(restore, p))
  {
    var key := UploadKey(restore, p);
    if key in KeysToBackup(backup.instances) {
      var n :| 0 <= n < |KeysToBackup(backup.instances)| && KeysToBackup(backup.instances)[n] == key;
      assert IsSource(backup.instances, p, n);
    }
    GoodBackupRecords(backup, lockFree, key);
    GoodBackupFiles(backup, lockFree, key);
    UnrecordedFailsExactly(restore.files, restore.metadata.value, key);
  }

  /** The job has a source, and everything that backed up arrives. */
  ghost predicate Arrives(restore: World, backup: World, p: Place) {
    exists n: nat :: IsSource(backup.instances, p, n) && n < |backup.remote| &&
      Delivers(restore.uploads(p), backup.remote[n])
  }

  lemma UploadArrives(restore: World, backup: World, lockFree: bool, p: Place)
    requires GoodBackup(backup, lockFree) && Restores(restore, backup, lockFree) && HasSource(backup.instances, p)
    ensures UploadSucceeds(restore, restore.files, restore.metadata, p) <==> Arrives(restore, backup, p)
  {
    if Arrives(restore, backup, p) {
      var n: nat :| IsSource(backup.instances, p, n) && n < |backup.remote| &&
        Delivers(restore.uploads(p), backup.remote[n]);
      UploadSucceedsExactly(restore, backup, lockFree, p, n);
    } else {
      var n: nat :| IsSource(backup.instances, p, n);
      UploadSucceedsExactly(restore, backup, lockFree, p, n);
    }
  }

  /** Whatever the names: if every job to restore has a source and all that it backed up arrives, the uploads succeed.
      */
  lemma UnchangedDeploymentRestores(restore: World, backup: World, lockFree: bool)
    requires GoodBackup(backup, lockFree) && Restores(restore, backup, lockFree)
    requires forall p | p in JobsWith(restore.instances, RestoreScript) :: Arrives(restore, backup, p)
    ensures R.UploadsSucceed(restore)
  {
    forall p | p in JobsWith(restore.instances, RestoreScript)
      ensures UploadSucceeds(restore, restore.files, restore.metadata, p)
    {
      UploadArrives(restore, backup, lockFree, p);
    }
  }

  /** If files are kept apart, the uploads of a restore succeed exactly when every job to restore has a source and all
      that it backed up arrives. */
  lemma UploadsSucceedExactly(restore: World, backup: World, lockFree: bool)
    requires GoodBackup(backup, lockFree) && Restores(restore, backup, lockFree) && FilesApart(backup.instances)
    ensures R.UploadsSucceed(restore) <==>
            forall p | p in JobsWith(restore.instances, RestoreScript) :: Arrives(restore, backup, p)
  {
    forall p | p in JobsWith(restore.instances, RestoreScript)
      ensures UploadSucceeds(restore, restore.files, restore.metadata, p) <==> Arrives(restore, backup, p)
    {
      if HasSource(backup.instances, p) {
        UploadArrives(restore, backup, lockFree, p);
      } else {
        ApartFails(restore, backup, lockFree, p);
      }
    }
  }

  lemma ApartFails(restore: World, backup: World, lockFree: bool, p: Place)
    requires GoodBackup(backup, lockFree) && Restores(restore, backup, lockFree) && FilesApart(backup.instances)
    requires p in JobsWith(restore.instances, RestoreScript) && !HasSource(backup.instances, p)
    ensures !UploadSucceeds(restore, restore.files, restore.metadata, p)
  {
    JobsWithMember(restore.instances, RestoreScript, p);
    var keys, key := KeysToBackup(backup.instances), KeyToRestore(backup.instances, p);
    forall n | 0 <= n < |keys| ensures FileName(keys[n]) != FileName(key) {
      assert !IsSource(backup.instances, p, n);
    }
    SourcelessFails(restore, backup, lockFree, p);
  }

  // ---------------------------------------------------------------------------------------------
  // A backup that lost its records

  /** The backup whose last write truncated the metadata passes every check on it; only the uploads notice, and not
      those of artifacts without files. */
  lemma TruncatedBackupIsRestored(restore: World, backup: World, lockFree: bool, p: Place)
    requires Possible(backup) && CleanBackup(backup, lockFree) && Restores(restore, backup, lockFree)
    requires backup.finishWrite == Broken(Some(NOTHING_RECORDED))
    ensures R.BackupValid(restore) && MatchesDeployment(restore.metadata.value, Map(restore.instances, NameOf))
    ensures UploadSucceeds(restore, restore.files, restore.metadata, p) <==>
            MarksAt(restore, restore.files, p) && restore.uploads(p).remote == Some(map[])
  {
    TruncatedMetadataIsAccepted(backup, lockFree);
    CleanBackupLeaves(backup, lockFree);
    if restore.uploads(p).remote.Some? {
      AgreeIsEqual(map[], restore.uploads(p).remote.value);
    }
  }
}
