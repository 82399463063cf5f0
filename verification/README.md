# BOSH Backup and Restore: lock ordering, execution, runs and bookkeeping

A Dafny model of the part of BOSH Backup and Restore (`bbr`) that decides what happens to a deployment and to a backup:
the order in which jobs are locked, the executors that run their scripts, the step graphs of backup and restore, and the
metadata and checksums by which a backup is judged. The proofs hold for every deployment, every set of constraints, every
pattern of failing scripts and remote operations, and every interleaving of goroutines.

How the modules build on each other:

- `Sequences`, `Jobs`: collections and the entities of a deployment.
- `LockGraph`: the constraint graph on job keys (name, instance), chains, cycles and the levels by longest chain;
  `LockOrderer`: the level-by-level algorithm, proved to compute exactly those levels; `Constraints`: the same in terms of
  what jobs declare.
- `Errors`: composite errors and the exit code. `Executor`: what carrying out batches means, and the serial executor;
  `ParallelExecutor`: goroutines, guard and result channels as a step relation.
- `Checksums`, `Metadata`, `BackupDirectory`, `Artifacts`: checksum maps, the metadata file, the backup directory with its
  objects, artifact identifiers and file names. `Transfers`: all downloads of a drain as one machine over the shared
  directory, and the download and upload executables; `DrainLog`: which downloads a schedule begins and ends;
  `DrainRecords`: records before and after a delete; `ParallelDrain`: the downloads as executables of the parallel executor.
- `Deployment`, `Traces`, `Session`, `Steps`: which jobs each activity touches, traces of calls, what each step does
  (`RunStep`), and the session object whose methods are proved to do that. `Workflow`: step graphs and their runs.
- `Locking`, `Worlds`, `BackupRun`, `BackupSafety`, `BackupOutcome`, `RestoreRun`, `RestoreSafety`, `EndToEnd`, `Findings`:
  whole runs, with the serial and with the parallel executor.
- `StepLaws`, `RunLaws`: when each step fails and what each run does, said once more of the jobs of `w.instances[i].jobs`, the
  scripts they ship and what they declare, without the functions that the steps are made of.

Everything the program does not control is a field of `Session.World`: which scripts fail, the log and the errors of each
executor run, the content of the artifacts, the interleaving of the downloads and their faults, the answers of the remote
disks. `Session.Possible` asks of a world only what is proved of the executors (`Executor.Executed`) and that downloads end.
`Worlds.ParallelIsPossible` shows that whatever the interleavings of the parallel executor, the world they make is possible,
and `Worlds.EveryWorldIsPossible` that every deployment, failure pattern, artifact content and download schedule has one.

Conventions. A Go error is `Some(error)` or a `None` result where the source returns only an error. A step that would
dereference an unset session field is `Panicked`. The exit code is a `bv8`. A call on a job without the script succeeds.
Instances are named by their position. A skip step of the lock-free backup is `Skip(step)` with the step whose place it
takes. YAML writing and reading is the identity on the metadata value, a digest is any non-empty string, and a failed write
of the metadata file may leave anything behind. The mutex makes each `AddChecksum` atomic. NewBackuper and NewRestorer build
their graphs by a loop over the nodes in the order in which the source adds them.

What the code does that its names or comments do not suggest:

- `AddFinishTime` ignores a failed write: a run with exit code 0 can leave no readable metadata, or, if the file was
  truncated, metadata that `Valid` accepts and in which nothing is recorded (`Findings.SilentlyLostBackup`). A backup is
  complete whatever a failed write leaves exactly when that write succeeds (`BackupOutcome.CleanBackupIsCompleteExactly`).
- `Valid` ignores the error of reading a custom artifact: one recorded as empty may be missing
  (`BackupDirectory.LostEmptyArtifactIsValid`; exact condition in `BackupDirectory.ValidExactly`).
- An upload marks its instance only after the whole copy succeeded, so a directory made by a copy that broke off stays
  behind (`Findings.LeakedDirectory`; exact condition in `RestoreSafety.RestoreCleansUpExactly`).
- Artifacts can share a file. A default identifier is the only dashless one with its file exactly when its instance name and
  index have no dash (`Artifacts.DashlessExactly`); such an identifier shares its file with the artifact of some
  backup-one-restore-all job exactly when its job name is `backup-one-restore-all` or ends with `-backup-one-restore-all`
  (`Artifacts.CustomCollidesExactly`). An error-free drain always leaves a valid backup exactly when artifacts that share a
  file have the same content (`Transfers.DrainIsValidExactly`).
- The record of a download is written before its remote artifact is deleted, but another download may break the metadata file
  in between: then the artifact is deleted although no record is left (`DrainRecords.DeletedWithoutRecord`). The record is
  still there, whatever a broken write leaves, exactly when no write broke since (`DrainRecords.RecordStaysExactly`).
- `Match` treats a missing key as the empty digest, so it is equality exactly for maps without empty digests
  (`Checksums.MatchIsEqualityExactly`).

## Model

| member | source | states |
|---|---|---|
| `LockOrderer.FindJobsBySpecifier` | orderer/kahn_lock_orderer.go:63-72 | exactly the jobs of that name and release, in order, duplicates included |
| `LockOrderer.FindLockingDependencies` | orderer/kahn_lock_orderer.go:45-61 | the pairs found are exactly the pairs of jobs whose first carries a specifier the second matches: in its backup list for a backup, in its restore list for a restore |
| `LockOrderer.JobsThatCanBeLocked` | orderer/kahn_lock_orderer.go:92-106 | keeps exactly the jobs that no dependency names as its after side, in order |
| `LockOrderer.RemoveJobs` | orderer/kahn_lock_orderer.go:108-123 | keeps exactly the jobs whose key is not among the removed ones, in order |
| `LockOrderer.RemoveDependenciesThatHaveAnyOneJobInBefore` | orderer/kahn_lock_orderer.go:125-142 | keeps exactly the dependencies whose before side is not among the locked jobs |
| `LockOrderer.OrderJobs` | orderer/kahn_lock_orderer.go:74-90 | the rounds compute the levels by longest chain, and stop with an error exactly on cyclic constraints |
| `LockOrderer.Order` | orderer/kahn_lock_orderer.go:36-43 | an error exactly when the constraint graph has a cycle, self-loops included; otherwise a permutation of the jobs in layers that honour every constraint, at most one layer per job; what a job declares for this activity is in a strictly later layer |
| `LockGraph.DeepForcesCycle` | orderer/kahn_lock_orderer.go:74-90 | pigeonhole: a chain of as many constraints as there are jobs contains a cycle |
| `LockGraph.StuckIsCyclic` | orderer/kahn_lock_orderer.go:79-81 | a round that finds nothing to lock while jobs remain exhibits a cycle |
| `LockGraph.CycleIsDeep` | orderer/kahn_lock_orderer.go:74-90 | chains of every length end at a key on a cycle, so no round ever takes it |
| `LockGraph.LockOrderIsValid` | orderer/kahn_lock_orderer.go:74-90 | the levels are non-empty, at most as many as jobs, a permutation of the jobs as a multiset, and honour every constraint |
| `LockGraph.LevelIsLongestChain` | orderer/kahn_lock_orderer.go:74-106 | a job in level b ends a chain of b constraints and none longer |
| `LockGraph.LockOrderIsEarliest` | orderer/kahn_lock_orderer.go:74-106 | no valid layering has fewer layers or places any job earlier |
| `LockGraph.LockOrderPermutation` | instance/job_finder.go:145-145 | permuting the input jobs changes neither the verdict nor, as multisets, the levels |
| `Constraints.BackupConstraint` | orderer/backup_lock_constraint_specifier.go:11-13 | b is constrained after a in a backup exactly when a specifier in the backup list of a has the name and release of b |
| `Constraints.RestoreConstraint` | orderer/restore_lock_constraint_specifier.go:11-13 | ... and in a restore exactly when one in its restore list has |
| `Constraints.BackupOrderHonours` | orderer/kahn_lock_orderer.go:45-61 | every level holding a is strictly before every one holding a job that the backup list of a names |
| `Constraints.RestoreOrderHonours` | orderer/kahn_lock_orderer.go:45-61 | the same with restore lists |
| `Constraints.BackupOrderFailsExactly` | orderer/kahn_lock_orderer.go:79-81 | ordering for a backup fails exactly when backup lists run in a ring of jobs |
| `Constraints.RestoreOrderFailsExactly` | orderer/kahn_lock_orderer.go:79-81 | ordering for a restore fails exactly when restore lists run in a ring of jobs |
| `Executor.RunSerially` | executor/serial.go:10-21 | returns the errors of all executables batch by batch in order; each ran once whatever failed |
| `Executor.ExecutedErrors` | executor/serial.go:10-21 | whoever keeps the executors' promise returns the failures as a multiset, none exactly when all succeeded |
| `Executor.EachStartsOnce` | executor/serial.go:13-19 | under any valid log every executable begins exactly once |
| `ParallelExecutor.AlwaysInv` | executor/parallel.go:17-40 | the invariant on tokens, buffered and received results, spawned goroutines and log holds in every state of every interleaving |
| `ParallelExecutor.BoundedConcurrency` | executor/parallel.go:21-32 | in every state at most the limit of executions run, all of one batch |
| `ParallelExecutor.Barrier` | executor/parallel.go:34-37 | once a goroutine of a later batch exists, every goroutine of an earlier batch has sent its result |
| `ParallelExecutor.GoroutineEnabled` | executor/parallel.go:26-31 | in a state that meets the invariant, the next step of any spawned goroutine that is not gone is possible |
| `ParallelExecutor.NeverBlocks` | executor/parallel.go:26-31 | in every state of every interleaving each such goroutine can take its own next step: sending on errs and releasing its token never block |
| `ParallelExecutor.AlwaysBarred` | executor/parallel.go:34-37 | in every state of every interleaving no event of a batch has happened before all of every earlier batch ended |
| `ParallelExecutor.CompleteRunExists` | executor/parallel.go:17-40 | some schedule leads to the end |
| `ParallelExecutor.NoDeadlock` | executor/parallel.go:17-40 | in every state that is not finished some step is possible |
| `ParallelExecutor.Terminates` | executor/parallel.go:17-40 | no schedule has more than 11 steps per executable, one per batch and one |
| `ParallelExecutor.ParallelMatchesSerial` | executor/parallel.go:17-40 | whatever the schedule, the errors returned are those of the serial executor, permuted within each batch |
| `ParallelExecutor.ParallelRunsToCompletion` | executor/parallel.go:17-40 | every run that cannot go on has returned, left no goroutine behind and executed everything exactly once |
| `Errors.FlattenErrors` | orchestrator/error.go:56-69 | the leaves of arbitrarily nested composites, left to right |
| `Errors.ConvertErrors` | orchestrator/error.go:46-54 | nil exactly when there are no leaves; otherwise a composite with no composite inside |
| `Errors.LeavesConcat` | orchestrator/error.go:56-69 | flattening distributes over concatenation |
| `Errors.LeavesArePlain` | orchestrator/error.go:56-69 | no composite is left among the leaves |
| `Errors.ConvertedIdempotent` | orchestrator/error.go:46-69 | converting the converted error changes nothing |
| `Errors.LeavesFlattens` | orchestrator/error.go:56-69 | flattening keeps plain errors, opens composites and goes left to right |
| `Errors.OnlyLeavesFlattens` | orchestrator/error.go:56-69 | and it is the only function that obeys those laws |
| `Errors.BuildExitCode` | orchestrator/error.go:168-185 | the exit code of the errors returned |
| `Errors.ExitCodeBits` | orchestrator/error.go:168-185 | 0 exactly without errors; bit 4 exactly when some error is a lock error, 8 an unlock error, 16 a cleanup error, 1 anything else; no other bit |
| `Checksums.GetMismatchedFiles` | orchestrator/checksum.go:19-29 | exactly the keys of the receiver whose digest differs, each once |
| `Checksums.Match` | orchestrator/checksum.go:5-17 | true exactly on equal size and agreement on the receiver's keys; otherwise the mismatched files |
| `Checksums.AgreeIsEqual` | orchestrator/checksum.go:5-17 | without empty digests in the receiver a match is equality of maps |
| `Checksums.EmptyDigestFools` | orchestrator/checksum.go:5-17 | with an empty digest the receiver matches a different map |
| `Checksums.MatchIsEqualityExactly` | orchestrator/checksum.go:5-17 | a match is equality for every other map if and only if the receiver has no empty digest |
| `Metadata.LookupAfterAdd` | backup/backup_directory.go:180-207 | what FetchChecksum finds after AddChecksum: the first write of an identifier wins, others are untouched |
| `Metadata.AddKeepsOneEntryEach` | backup/metadata.go:55-67 | at most one entry per instance name and index |
| `Metadata.WritesRefineMap` | backup/backup_directory.go:180-207 | any sequence of AddChecksum calls looks like a first-write-wins map from identifier to checksum |
| `Metadata.MutexOrderIrrelevant` | backup/backup_directory.go:180-184 | for distinct identifiers every order in which goroutines take the mutex gives the same lookups |
| `Metadata.RecordedAfterAdd` | backup/backup_directory.go:180-207 | AddChecksum adds exactly one record and loses none |
| `Metadata.LookupIsRecorded` | backup/backup_directory.go:112-139 | what is found is recorded under that identifier |
| `Metadata.RecordedIsFound` | backup/backup_directory.go:112-139 | what is recorded is found |
| `BackupDirectory.MetadataObject.FindOrCreateInstanceMetadata` | backup/metadata.go:55-67 | returns the object at the first matching position, or a new one appended at the end |
| `BackupDirectory.MetadataObject.AppendToInstance` | backup/backup_directory.go:196-204 | appending through the shared pointer updates exactly the matching entry of the list |
| `BackupDirectory.MetadataObject.Append` | backup/backup_directory.go:189-204 | the object's value after recording one artifact |
| `BackupDirectory.MetadataObject.Save` | backup/metadata.go:46-53 | writes the value of the object |
| `BackupDirectory.ReadMetadata` | backup/metadata.go:32-44 | fresh objects with the value in the file |
| `BackupDirectory.Directory.AddChecksum` | backup/backup_directory.go:180-207 | fails exactly when the metadata cannot be read or written; otherwise the file holds the added record |
| `BackupDirectory.Directory.FetchChecksum` | backup/backup_directory.go:112-139 | the first record of the identifier; a missing one reads as the empty map, only unreadable metadata is an error |
| `BackupDirectory.Directory.CalculateChecksum` | backup/backup_directory.go:148-178 | an error exactly for a missing or broken tar; otherwise the names are those of the entries that are not directories, and each digest is that of the last such entry of the name |
| `BackupDirectory.TarChecksumSumsUp` | backup/backup_directory.go:157-175 | the same of the checksum of any entries |
| `BackupDirectory.OnlyOneSumsUp` | backup/backup_directory.go:157-175 | and no other checksum has these names and digests |
| `BackupDirectory.Directory.IsValid` | backup/backup_directory.go:245-277 | true exactly when the metadata is readable and every custom and default artifact passes its check |
| `BackupDirectory.Directory.DeploymentMatches` | backup/backup_directory.go:67-86 | an error for unreadable metadata; otherwise true exactly when every recorded instance is in the deployment |
| `BackupDirectory.TarChecksumNoEmptyDigest` | backup/backup_directory.go:148-178 | a computed checksum has no empty digest |
| `BackupDirectory.ValidExactly` | backup/backup_directory.go:245-277 | every record is held by its file exactly when the backup is valid and no custom artifact is both unreadable and recorded as empty |
| `BackupDirectory.LostEmptyArtifactIsValid` | backup/backup_directory.go:251-258 | a backup that lost its only, empty, custom artifact is valid, whatever its name |
| `Artifacts.RestoresOwnBackupExactly` | instance/job.go:62-115 | a job restores from the identifier its own backup wrote exactly when it is ordinary without restore_name, or the bootstrap job |
| `Artifacts.BackupKeyIs` | instance/artifact.go:21-36 | which jobs of which instances are backed up under a given custom or default identifier |
| `Artifacts.RestoreKeyIs` | instance/artifact.go:38-53 | which are restored from it, restore_name included |
| `Artifacts.RestoresBootstrapBackup` | instance/artifact.go:21-53 | every node of a backup-one-restore-all job restores from the identifier and file its bootstrap node wrote |
| `Artifacts.FileNameIs` | backup/backup_directory.go:308-318 | a file is that of an identifier exactly when it ends in .tar and the rest is the custom name, or instance name, index and job name joined by dashes |
| `Artifacts.DefaultFileNamesInjective` | backup/backup_directory.go:308-318 | default file names are injective when instance names and indexes contain no dash |
| `Artifacts.CustomFileNamesInjective` | backup/backup_directory.go:320-322 | custom file names are injective |
| `Artifacts.DashCollides` | backup/backup_directory.go:316-318 | an identifier with such a dash always shares its file name with another one |
| `Artifacts.DashlessExactly` | backup/backup_directory.go:316-318 | a default identifier shares its file with no other dashless one exactly when it is dashless itself |
| `Artifacts.CustomCollidesExactly` | backup/backup_directory.go:308-322 | a dashless default artifact shares its file with that of some backup-one-restore-all job exactly when its job name is that suffix or ends with a dash and that suffix |
| `Artifacts.WellNamedFilesDiffer` | backup/backup_directory.go:308-322 | dashless default artifacts without such job names, and custom ones, all have different files |
| `Artifacts.CustomCollidesWithDefault` | backup/backup_directory.go:308-322 | a pair that does collide |
| `Artifacts.ArtifactIsNotMetadata` | backup/backup_directory.go:288-298 | no artifact overwrites the metadata or the manifest |
| `Transfers.DownloadArtifact` | orchestrator/backup_download_executable.go:24-111 | the executable does to directory and remote artifact what the download machine does under the same faults; it succeeds exactly when every operation does, the content is a tar of the remote checksum, the metadata is readable and the write whole; a delete is sent exactly when all before it held; the metadata changes exactly when its write is reached |
| `Transfers.AloneIsPlayed` | orchestrator/backup_download_executable.go:24-47 | one executable alone is a run of the machine of all downloads |
| `Transfers.Operate` | orchestrator/backup_download_executable.go:24-111 | one operation of one download on the shared directory is one move of the machine |
| `DrainLog.SettledLogIsValid` | orchestrator/artifact_copier.go:26-39 | a schedule in which all downloads are over begins and ends each exactly once |
| `DrainLog.EveryDrainSettles` | orchestrator/artifact_copier.go:26-39 | every schedule can be brought to an end |
| `ParallelDrain.JointIsDrain` | orchestrator/artifact_copier.go:26-39 | every interleaving of the parallel executor over the downloads is a run of the drain machine |
| `ParallelDrain.FewDownloadsUnderway` | executor/parallel.go:21-32 | in every state no more downloads are under way than the executor runs at once |
| `ParallelDrain.ReturnedIsSettled` | orchestrator/artifact_copier.go:36-39 | when the executor returns all downloads are over, and it returns no error exactly when all succeeded |
| `ParallelDrain.JointNoDeadlock` | executor/parallel.go:17-40 | until everything is finished some step of the executor or of a download is possible |
| `ParallelDrain.JointRunExists` | executor/parallel.go:17-40 | for all artifacts there is such an interleaving in which the executor returns |
| `Transfers.UploadArtifact` | orchestrator/backup_upload_executable.go:27-79 | succeeds exactly when the local file is there and readable, all of it was copied, the metadata is readable and the recorded checksum agrees with what arrived; marks the instance exactly when the copy succeeded |
| `Transfers.AlwaysDrainInv` | orchestrator/artifact_copier.go:26-39 | the invariant on progress, records and files holds in every state of every interleaving of the downloads |
| `DrainRecords.DeletedOnlyAfterRecorded` | orchestrator/backup_download_executable.go:24-111 | under every failure pattern a remote artifact is deleted only after its local checksum equalled it and, at an earlier moment, the metadata recorded it; unless a write broke it still does |
| `DrainRecords.RecordStaysExactly` | orchestrator/backup_download_executable.go:36-46 | over every run: from the record on, and so when the delete is sent, the record is in the metadata, whatever a broken write leaves, exactly when no write broke in between |
| `DrainRecords.DeletedWithoutRecord` | orchestrator/backup_download_executable.go:36-46 | in every drain of two artifacts one can be deleted although no record is left, because the write of the other broke |
| `DrainRecords.FailureIsFinal` | orchestrator/backup_download_executable.go:24-81 | over every run, a download that meets an error, a stream that breaks off or a failed record never succeeds, and if that was before its delete none is sent |
| `DrainRecords.FailureIsNotRecorded` | orchestrator/backup_download_executable.go:24-38 | nor is any checksum recorded under its identifier, if no other artifact has that and no write broke |
| `DrainRecords.NoMetadataNoRecord` | backup/backup_directory.go:184-186 | without a metadata file to begin with no download ever gets as far as its delete |
| `Transfers.ErrorFreeDrainIsComplete` | orchestrator/artifact_copier.go:26-39 | if no download fails, every artifact is recorded, found and held, and Valid accepts the directory |
| `Transfers.SharedFileSpoils` | orchestrator/artifact_copier.go:26-39 | two artifacts of different content in one file: some error-free drain leaves an invalid backup |
| `Transfers.DrainIsValidExactly` | orchestrator/artifact_copier.go:26-39 | every error-free drain leaves a valid backup exactly when artifacts that share a file agree |
| `Deployment.Reverse` | orchestrator/reverse.go:3-9 | the levels in reverse |
| `Deployment.ReversedPermutation` | orchestrator/reverse.go:3-9 | reversing the levels keeps the jobs as a multiset |
| `Deployment.AllJobsStanding` | orchestrator/instance.go:86-93 | a job is among the collected ones as often as it stands in the job lists of the instances, and exactly when it is in some |
| `Deployment.JobsWithStanding` | instance/deployed_instance.go:98-116 | an artifact is moved as often as its job stands there, if that ships the script, and no other |
| `Deployment.JobsBesideStanding` | orchestrator/deployment.go:101-109 | a job is backed up as often as it stands on instances of which some job ships the script |
| `Deployment.KeysToBackupAre` | orchestrator/artifact_copier.go:27-34 | the identifiers downloaded are exactly those of jobs with a backup script |
| `Deployment.JobsWithMember` | instance/deployed_instance.go:98-116 | the artifacts to move are those of exactly the jobs with the script |
| `Deployment.JobsBesideMember` | orchestrator/deployment.go:101-109 | the jobs backed up are all jobs of exactly the instances with a backup script |
| `Traces.BegunOnEach` | orchestrator/deployment.go:179-189 | an executor run over batches of jobs begins the call exactly once on every job |
| `Traces.BatchesSeparate` | executor/parallel.go:34-37 | a call on a job of an earlier batch has ended before one on a later batch begins, and never ends after |
| `Session.ExecutorVerdict` | orchestrator/deployment.go:92-95 | the converted errors of an executor run are nil exactly when every call succeeded |
| `Steps.CollectJobs` | orchestrator/instance.go:86-93 | all jobs of all instances in order, each as often as it stands in them |
| `Steps.NewJobExecutables` | orchestrator/deployment.go:179-189 | one executable per job, level by level |
| `Steps.RunExecutables` | orchestrator/deployment.go:92-95 | the step fails exactly when some call fails on a job that ships its script (which script that is: the rows of StepLaws) |
| `Steps.CheckArtifactDir` | orchestrator/deployment.go:57-74 | complains exactly when some instance has an artifact directory or cannot be asked |
| `Steps.MarkBackupable` | orchestrator/deployment.go:101-109 | marks exactly the instances with a backup script and turns all their jobs into executables |
| `Steps.SessionObject.LockJobs` | orchestrator/deployment.go:82-96 | orders the jobs and locks them level by level; on cyclic constraints it fails and touches nothing |
| `Steps.SessionObject.UnlockJobs` | orchestrator/deployment.go:117-137 | orders the same jobs again and unlocks the levels backwards |
| `Steps.SessionObject.BackUpAll` | orchestrator/deployment.go:98-115 | new flags, trace and error of the backup step |
| `Steps.SessionObject.CleanUpAll` | bosh/deployed_instance.go:31-47 | attempts a removal on exactly the marked instances, whatever fails |
| `Steps.SessionObject.RestoreAll` | orchestrator/instance.go:158-166 | runs all jobs of an instance whatever fails, and stops after the first instance with a failure |
| `Steps.SessionObject.UploadAll` | orchestrator/artifact_copier.go:41-54 | uploads every artifact to restore from the files of the backup; fails exactly when some upload fails; marks the instances that got a whole copy |
| `Steps.DownloadAll` | orchestrator/artifact_copier.go:26-39 | the downloads, taking turns on the shared directory as scheduled, leave what the machine leaves |
| `Steps.SessionObject.DrainAll` | orchestrator/drain_step.go:19-27 | new files, metadata, trace and error of the drain step |
| `Steps.SessionObject.CheckBackup` | orchestrator/backupable_step.go:16-33 | the checks before a backup, in order, with the class of the error |
| `Steps.SessionObject.CheckRestore` | orchestrator/restorable_step.go:21-51 | passes exactly when no restore_name, some restore script, a matching backup, no artifact directory and no cycle |
| `Steps.SessionObject.Run` | orchestrator/session.go:3-40 | every step, run with the session fields it reads set, does to the session what RunStep says |
| `StepLaws.LockForBackupFails` | instance/job.go:151-174 | no error exactly when the backup lists run in no ring and on every job of every instance that ships pre-backup-lock it succeeds |
| `StepLaws.LockForRestoreFails` | instance/job.go:205-228 | the same with restore lists and pre-restore-lock |
| `StepLaws.UnlockAfterBackupFails` | instance/job.go:176-203 | the same with post-backup-unlock, told whether the backup succeeded |
| `StepLaws.UnlockAfterRestoreFails` | instance/job.go:257-280 | the same with post-restore-unlock |
| `StepLaws.BackUpJobsFails` | instance/job.go:117-149 | no error exactly when every backup script of every instance succeeds |
| `StepLaws.RestoreJobsFails` | instance/job.go:230-255 | no error exactly when every restore script of every instance succeeds |
| `StepLaws.CheckBackupableFails` | orchestrator/backupable_step.go:16-33 | passes exactly when some job ships a backup script, every instance answers and has no artifact directory, and there is no ring |
| `StepLaws.CheckRestorableFails` | orchestrator/restorable_step.go:21-51 | passes exactly when no restorable instance has a restore_name left, some job ships a restore script, every recorded instance is there by name and index, every instance answers and has no artifact directory, and there is no ring |
| `StepLaws.CleanUpFails` | bosh/deployed_instance.go:31-47 | fails exactly when a connection cannot be cleaned up or the directory of a marked instance not removed |
| `StepLaws.DrainFails` | orchestrator/drain_step.go:19-27 | fails exactly when some download does not end in success |
| `StepLaws.ErrorClasses` | orchestrator/error.go:15-44 | which steps fail with which class of error |
| `StepLaws.PanicsExactly` | orchestrator/session.go:22-32 | which steps read the deployment or the backup that the session does not have yet |
| `Workflow.WorkflowObject.Add` | orchestrator/workflow.go:42-46 | appends a new node without edges |
| `Workflow.WorkflowObject.FindNode` | orchestrator/workflow.go:29-40 | the first node of a step that is in the graph |
| `Workflow.WorkflowObject.Build` | orchestrator/workflow.go:42-52 | the nodes added make up the planned graph, starting at the first step |
| `Workflow.WorkflowObject.Run` | orchestrator/workflow.go:12-27 | visits the steps of the run along the edges and returns exactly the errors of the failed ones in order of the visits |
| `Workflow.RunIsLinked` | orchestrator/workflow.go:12-27 | consecutive visits are joined by the edge that the error selects, and the session is handed on |
| `Workflow.VisitsOnce` | orchestrator/workflow.go:12-40 | on any graph with closed edges and a rank, a run visits each node at most once |
| `Workflow.RunExitCode` | orchestrator/error.go:168-185 | over every run of every graph the exit code is 0 exactly when no visited step failed, and bits 4, 8, 16 and 1 tell that the lock step of the backup, an unlock step, the cleanup or any other step failed |
| `Locking.LocksEachOnce` | orchestrator/deployment.go:82-137 | every job is locked once and unlocked once |
| `Locking.LocksNest` | orchestrator/deployment.go:82-137 | for a before b, a's lock ends before b's begins and b's unlock ends before a's begins |
| `Worlds.EveryWorldIsPossible` | executor/serial.go:10-21 | whatever fails, whatever the artifacts hold and however downloads are scheduled, the world with the serial executor is possible |
| `Worlds.ParallelIsPossible` | executor/parallel.go:17-40 | whatever the interleavings of the parallel executor, the world they make is possible |
| `Worlds.ParallelRunsExist` | executor/parallel.go:17-40 | every world has such interleavings |
| `Worlds.ParallelDownloads` | orchestrator/artifact_copier.go:26-39 | whatever the interleaving in which the parallel executor runs the downloads, the world with their operations is possible, leaves what they left and reports an error exactly when the executor does |
| `Worlds.ParallelLocksNest` | orchestrator/deployment.go:82-96 | in every state of every interleaving, for a before b, b's lock has not begun before a's ended |
| `Worlds.ParallelUnlocksNest` | orchestrator/deployment.go:117-137 | in every state of every interleaving a's unlock has not begun before b's ended |
| `BackupRun.BackupGraphRanked` | orchestrator/backuper.go:32-42 | the backup graph, with and without locking, is closed and ranked |
| `BackupRun.NewBackuper` | orchestrator/backuper.go:9-47 | the nodes built make up the backup graph |
| `BackupRun.BackupRunEnds` | orchestrator/backuper.go:32-42 | whatever fails, no visited step reads an unset session field, and the run ends in the stated session |
| `BackupRun.BackupRunFacts` | orchestrator/backuper.go:32-42 | every backup run follows the graph, visits no step twice and returns no error exactly when nothing failed |
| `BackupRun.Backup` | orchestrator/backuper.go:59-66 | the final session, the errors of the visited steps in order, none exactly when nothing failed |
| `BackupSafety.BackupTraceIs` | orchestrator/backuper.go:32-42 | the trace and the artifact directories at the end of a run |
| `BackupSafety.BackupRunLeaves` | orchestrator/backuper.go:59-66 | ... of every backup run |
| `BackupSafety.BackupPhases` | orchestrator/backuper.go:32-42 | all locks before all backups before all unlocks before all downloads before all removals |
| `BackupSafety.UnreadyTouchesNothing` | orchestrator/backupable_step.go:16-33 | every backup run on cyclic constraints, or that fails another check, begins no call and changes no directory |
| `BackupSafety.BackupLocksEachOnce` | orchestrator/deployment.go:82-96 | otherwise every job gets exactly one lock attempt, whichever fail |
| `BackupSafety.BackupUnlocksEachOnce` | orchestrator/deployment.go:117-137 | and exactly one unlock attempt, whose flag is true exactly when every lock and every backup succeeded |
| `BackupSafety.LockFreeBackup` | orchestrator/backuper.go:26-30 | without locking no job is locked or unlocked |
| `BackupSafety.BackupRunsEachOnce` | orchestrator/backuper.go:36-36 | jobs are backed up exactly when every lock succeeded, each once |
| `BackupSafety.DownloadsEachOnce` | orchestrator/backuper.go:37-38 | artifacts are downloaded exactly when every lock and backup succeeded, each once |
| `BackupSafety.BackupLocksNest` | orchestrator/deployment.go:82-96 | over the whole run, for a before b, a's lock ends before b's begins |
| `BackupSafety.BackupUnlocksNest` | orchestrator/deployment.go:117-137 | over the whole run, b's unlock ends before a's begins |
| `BackupSafety.BackupSparesOthers` | orchestrator/deployment.go:57-74 | cleanup never aims at a directory that existed before the run |
| `BackupSafety.BackupCleansUpItsOwn` | orchestrator/deployment.go:98-109 | once backup scripts were begun, cleanup aims at every directory they made, whichever failed |
| `BackupSafety.BackupLeavesBehind` | bosh/deployed_instance.go:31-47 | the directories afterwards: the old ones, and those made whose removal failed |
| `BackupOutcome.CleanBackupIsComplete` | orchestrator/backuper.go:32-42 | a run without errors leaves every artifact recorded, found and held, and a valid backup |
| `BackupOutcome.CleanBackupExactly` | orchestrator/backuper.go:32-42 | a run returns no error exactly when every check, script, download and removal succeeds; the last metadata write does not count |
| `BackupOutcome.FinishWriteIsSilent` | backup/backup_directory.go:227-239 | however the last metadata write goes, an error-free run stays error-free |
| `BackupOutcome.CleanBackupIsCompleteExactly` | backup/backup_directory.go:227-239 | an error-free run leaves a complete (and a valid) backup, whatever a failed last write leaves of the metadata, exactly when that write succeeds |
| `BackupOutcome.TruncatedMetadataIsAccepted` | backup/backup_directory.go:236-238 | over every error-free run: truncated metadata is valid, but nothing that was backed up is found |
| `BackupOutcome.FaultlessIsClean` | orchestrator/backuper.go:32-42 | in every deployment that passes the checks, whatever its artifacts hold, a backup in which nothing fails is possible and returns no error |
| `BackupOutcome.LostFinishTimeIsSilent` | backup/backup_directory.go:236-238 | in every such deployment a last write that leaves nothing gives an invalid backup, and one that leaves empty metadata a valid but incomplete one, without an error |
| `EndToEnd.FaultlessIsGood` | orchestrator/backuper.go:32-42 | every deployment that passes the checks has a good backup, whatever its artifacts hold |
| `Findings.SilentlyLostBackup` | backup/backup_directory.go:236-238 | one redis instance: no error and no valid backup, or a valid one that is not complete |
| `Findings.RedisRoundTrip` | orchestrator/restorer.go:21-24 | one redis instance with one dump: the upload of the restore succeeds exactly when the dump arrives |
| `Findings.LeakedDirectory` | orchestrator/backup_upload_executable.go:47-52 | one redis instance, a good backup and a possible run: the directory of the upload that broke off is never removed |
| `RestoreRun.RestoreGraphRanked` | orchestrator/restorer.go:21-28 | the restore graph is closed and ranked |
| `RestoreRun.NewRestorer` | orchestrator/restorer.go:9-32 | the nodes built make up the restore graph |
| `RestoreRun.RestoreRunEnds` | orchestrator/restorer.go:21-28 | whatever fails, no visited step reads an unset session field, and the run ends in the stated session |
| `RestoreRun.RestoreRunFacts` | orchestrator/restorer.go:21-28 | every restore run follows the graph, visits no step twice and returns no error exactly when nothing failed |
| `RestoreRun.Restore` | orchestrator/restorer.go:34-39 | the final session, the errors of the visited steps in order, none exactly when nothing failed |
| `RestoreSafety.RestoreTraceIs` | orchestrator/restorer.go:21-28 | the trace and the artifact directories at the end of a run |
| `RestoreSafety.RestoreRunLeaves` | orchestrator/restorer.go:34-39 | ... of every restore run |
| `RestoreSafety.RestorePhases` | orchestrator/restorer.go:21-28 | all uploads before all locks before all restores before all unlocks before all removals |
| `RestoreSafety.RestoresInOrder` | orchestrator/instance.go:158-166 | restore scripts run in order of instances and jobs: all if none fails, else up to the end of the first instance with a failure |
| `RestoreSafety.RestoreIsGuarded` | orchestrator/restorer.go:21-26 | no restore script runs unless the backup is valid and matches, every upload arrived intact and every lock succeeded |
| `RestoreSafety.UnpermittedTouchesNothing` | orchestrator/restorable_step.go:21-51 | every restore run that fails a check uploads, locks, restores, unlocks and removes nothing |
| `RestoreSafety.RestoreLocksEachOnce` | orchestrator/deployment.go:139-153 | jobs are locked exactly when every upload arrived intact, each once, whichever locks fail |
| `RestoreSafety.RestoreUnlocksEachOnce` | orchestrator/deployment.go:162-177 | and then each job is unlocked exactly once |
| `RestoreSafety.RestoreLocksNest` | orchestrator/deployment.go:139-153 | over the whole run, for a before b, a's lock ends before b's begins |
| `RestoreSafety.RestoreUnlocksNest` | orchestrator/deployment.go:162-177 | over the whole run, b's unlock ends before a's begins |
| `RestoreSafety.RestoreSparesOthers` | orchestrator/restorable_step.go:41-44 | cleanup never aims at a directory that existed before the run |
| `RestoreSafety.RestoreCleansUpExactly` | orchestrator/backup_upload_executable.go:47-52 | a directory the run made is removed exactly when some upload to that instance was copied completely |
| `EndToEnd.RestoreAcceptsBackup` | orchestrator/validate_artifact_step.go:16-31 | what an error-free backup left is valid and matches the same deployment |
| `EndToEnd.OwnSource` | instance/job.go:62-115 | an ordinary job with a backup script and no restore_name is restored from the artifact it wrote |
| `EndToEnd.BootstrapSource` | instance/artifact.go:21-53 | a backup-one-restore-all job on any node is restored from the artifact its bootstrap node wrote |
| `EndToEnd.RestoreFindsSource` | orchestrator/backup_upload_executable.go:27-58 | the restore finds the recorded checksum and the file with exactly what the source backed up |
| `EndToEnd.UploadSucceedsExactly` | orchestrator/backup_upload_executable.go:27-79 | an upload with a source succeeds exactly when the copy completes and all that the source backed up arrives |
| `EndToEnd.SourcelessFails` | backup/backup_directory.go:100-110 | the upload of a job without a source fails whatever happens exactly when no artifact that was backed up has its file |
| `EndToEnd.UploadsSucceedExactly` | orchestrator/artifact_copier.go:41-54 | if files are kept apart, the uploads succeed exactly when every job to restore has a source and all that it backed up arrives |
| `EndToEnd.NamesAreWellNamed` | instance/artifact.go:21-53 | which names of instances and jobs make the identifiers of a deployment well named |
| `EndToEnd.WellNamedFilesApart` | backup/backup_directory.go:308-322 | well-named identifiers keep the files of a deployment apart, those to restore included |
| `EndToEnd.WellNamedFilesAgree` | backup/backup_directory.go:308-322 | in a well-named deployment with distinct identifiers no two artifacts share a file |
| `EndToEnd.TruncatedBackupIsRestored` | backup/backup_directory.go:245-277 | a backup whose metadata was truncated passes validation and matching; its uploads succeed exactly when nothing arrives |
| `EndToEnd.UnchangedDeploymentRestores` | orchestrator/restorer.go:21-24 | if everything arrives, every upload step of the restore succeeds |
| `EndToEnd.UnchangedDeploymentIsPermitted` | orchestrator/restorable_step.go:21-51 | only restore_name, missing restore scripts, existing directories or cyclic restore constraints can stop it before |
| `RunLaws.ReadyExactly` | orchestrator/backuper.go:32-36 | when a backup run gets as far as locking |
| `RunLaws.PermittedExactly` | orchestrator/restorer.go:21-24 | when a restore run gets as far as uploading |
| `RunLaws.BackupStops` | orchestrator/backupable_step.go:16-33 | an instance that does not answer or has an artifact directory, no backup script, or a ring: the run calls nothing, changes no directory and returns an error |
| `RunLaws.RestoreStops` | orchestrator/restorable_step.go:21-51 | ... or a restore_name left, or a recorded instance that is not there: so does the restore |
| `RunLaws.BackupLocks` | orchestrator/deployment.go:82-96 | otherwise a locking backup locks each job as often as it stands in the instances |
| `RunLaws.BackupUnlocks` | orchestrator/deployment.go:117-137 | and unlocks it as often, telling it whether all pre-backup-lock and all backup scripts succeeded |
| `RunLaws.BackupCalls` | orchestrator/deployment.go:98-115 | backup is called on all jobs of exactly the instances with a backup script, if all pre-backup-lock scripts succeeded |
| `RunLaws.NoBackupUnlocked` | orchestrator/backuper.go:35-36 | no backup script begins if the pre-backup-lock script of any job of any instance fails |
| `RunLaws.BackupDownloads` | orchestrator/artifact_copier.go:26-39 | the artifact of each job with a backup script is downloaded, if all those scripts succeeded |
| `RunLaws.DeclaredLocksNest` | orchestrator/deployment.go:82-137 | over the whole run, if the backup list of a names b, a's lock ends before b's begins and b's unlock before a's begins |
| `RunLaws.BackupRemovals` | orchestrator/deployment.go:103-109 | cleanup aims at exactly the instances with a backup script, once all locks succeeded |
| `RunLaws.BackupDirectories` | bosh/deployed_instance.go:31-47 | the directories afterwards: the old ones, and those that a job with a backup script made and cleanup could not remove |
| `RunLaws.BackupSucceedsExactly` | orchestrator/backuper.go:32-42 | a run returns no error exactly when its checks pass and no script, download, removal or connection fails |
| `RunLaws.RunsInOrder` | orchestrator/backuper.go:32-42 | over both runs nothing happens before what must come first |
| `RunLaws.CleanNeedsMetadata` | orchestrator/create_artifact_step.go:20-31 | a backup without error needs the first write of its metadata file |
| `RunLaws.FailedConnectionShows` | bosh/deployed_instance.go:41-46 | every backup run that cannot clean up the connection to some instance returns a cleanup error, exit code bit 16 |
| `RunLaws.BackupCleansUp` | orchestrator/backuper.go:32-42 | every backup run that found its deployment visits the cleanup step |
| `RunLaws.UploadsSucceedIs` | orchestrator/backup_upload_executable.go:27-79 | uploads succeed exactly when for each job with a restore script the file of its identifier opens, is copied and what arrives has the recorded checksum |
| `RunLaws.RestoreUploads` | orchestrator/artifact_copier.go:41-54 | a permitted restore uploads the artifact of each job with a restore script, as often as it stands in the instances, and no other |
| `RunLaws.RestoreLocks` | orchestrator/deployment.go:139-153 | it locks each job as often as it stands in the instances, if all uploads arrived |
| `RunLaws.RestoreUnlocks` | orchestrator/deployment.go:162-177 | and unlocks it as often |
| `RunLaws.NoRestoreUnlocked` | orchestrator/restorer.go:24-26 | no restore script begins if the pre-restore-lock script of any job of any instance fails |
| `RunLaws.RestoreCalls` | orchestrator/deployment.go:155-160 | if nothing fails, restore is called on all jobs of exactly the instances with a restore script |
| `RunLaws.DeclaredRestoreLocksNest` | orchestrator/deployment.go:139-177 | over the whole run, the same nesting for what restore lists name |
| `RunLaws.RestoresOneAtATime` | orchestrator/instance.go:158-166 | over the whole run each restore script ends before the next event |
| `RunLaws.RestoreDirectories` | orchestrator/backup_upload_executable.go:47-52 | the directories afterwards: the old ones, and those that uploads made, unless a file was copied whole to that instance and its removal succeeded; removals aim at exactly such instances |
| `RunLaws.RestoreSucceedsExactly` | orchestrator/restorer.go:21-28 | a run returns no error exactly when its checks pass and no upload, script, removal or connection fails |

## Left out

- SSH, the BOSH director and the standalone deployment: their answers are fields of the world.
- Command line, flags, factories, logging, progress messages, error texts, stack traces and timestamps.
- YAML, tar, SHA-256 and `du`: abstract values, as stated above.
- Finding jobs and their scripts on an instance (instance/job_finder.go, instance/script.go): a deployment is given.
- The cleanup and pre-check commands (orchestrator/cleanup_previous_step.go and others): they would only add shorter graphs.
- The executor over several deployments (executor/deployment): the same channels without batches.
- `SetMaxInFlight`: its receiver is a copy, so that it changes nothing; the proofs hold for every limit.
- The s3-config-validator: field checks and calls to AWS.
- `Steps.Execute`: stands for either executor and only hands over the errors of the world, which keep the promise proved of
  both.
- `Steps.SessionObject.UploadAll`: goes through the uploads one by one instead of as goroutines; they only read the backup
  directory and each sets the flag of its own instance, so their order makes no difference.
- `Transfers.UploadArtifact`: what arrives on the remote disk is given by the faults, not computed from the local file.
