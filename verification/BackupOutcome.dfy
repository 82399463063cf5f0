/** When a backup run returns no error, and what it then leaves on the local disk. */
module BackupOutcome {
  import opened Sequences
  import opened Jobs
  import opened LockGraph
  import opened Metadata
  import opened BackupDirectory
  import opened Transfers
  import opened Deployment
  import opened Traces
  import opened Session
  import opened BackupRun
  import opened BackupSafety
  import opened Locking
  import opened Worlds

  // ---------------------------------------------------------------------------------------------
  // When a run returns no error

  ghost predicate UnlocksSucceed(w: World, lockFree: bool) {
    lockFree || AllCallsSucceed(w, Unlock(Backing, true), AllJobs(w.instances))
  }

  /** Every check, script, download and removal succeeds; nothing is said of the last write of the metadata. */
  ghost predicate NothingFails(w: World, lockFree: bool) {
    && Ready(w)
    && Successful(w, lockFree)
    && UnlocksSucceed(w, lockFree)
    && AllDone(Drained(w, FirstMetadata(w)))
    && CleansUp(w, With(w.instances, BackupScript))
  }

  lemma SomethingToBackUp(instances: Instances)
    requires AnyWith(instances, BackupScript)
    ensures |KeysToBackup(instances)| > 0
  {
    var i :| 0 <= i < |instances| && HasJobWith(BackupScript, instances[i]);
    var j :| j in instances[i].jobs && HasScript(BackupScript, j);
    JobsWithMember(instances, BackupScript, Place(i, j));
  }

  /** If all of at least one download is done, there is metadata. */
  lemma DoneLeavesMetadata(artifacts: seq<ArtifactKey>, remote: seq<seq<TarEntry>>, metadata: Option<MetadataFile>,
                           moves: seq<Move>)
    requires |artifacts| == |remote| > 0 && metadata in [None, Some(NOTHING_RECORDED)]
    requires AllDone(PlayAll(artifacts, remote, Start(artifacts, metadata), moves))
    ensures PlayAll(artifacts, remote, Start(artifacts, metadata), moves).metadata.Some?
  {
    AlwaysDrainInv(artifacts, remote, metadata, moves);
    var s := PlayAll(artifacts, remote, Start(artifacts, metadata), moves);
    assert s.downloads[0].Done? && !s.broken;
    assert IsRecorded(s.downloads[0]);
  }

  lemma UnlockErrorIs(w: World, lockFree: bool, s: State)
    requires !Cyclic(AllJobs(w.instances), Backing)
    ensures UnlockResult(w, lockFree, true, s).error.None? <==> UnlocksSucceed(w, lockFree)
  {
    LevelsHoldAllJobs(w, Backing);
  }

  lemma CleanUnlockExactly(w: World, lockFree: bool, s: State)
    requires Ready(w) && |w.remote| == |KeysToBackup(w.instances)|
    requires s.metadata == FirstMetadata(w) && s.artifact && s.marked == With(w.instances, BackupScript)
    ensures CleanUnlock(w, lockFree, true, s) <==>
            UnlocksSucceed(w, lockFree) && AllDone(Drained(w, FirstMetadata(w))) && CleansUp(w, s.marked)
  {
    UnlockErrorIs(w, lockFree, s);
    if AllDone(Drained(w, FirstMetadata(w))) {
      SomethingToBackUp(w.instances);
      DoneLeavesMetadata(KeysToBackup(w.instances), w.remote, FirstMetadata(w), w.moves);
    }
  }

  lemma CleanLockExactly(w: World, lockFree: bool)
    requires Ready(w) && |w.remote| == |KeysToBackup(w.instances)|
    ensures CleanLock(w, lockFree, Created(w)) <==> NothingFails(w, lockFree)
  {
    LockResultIs(w, lockFree, Created(w));
    var backedUp := RunBackup(w, LockResult(w, lockFree, Created(w)).state).state;
    assert backedUp.marked == With(w.instances, BackupScript);
    CleanUnlockExactly(w, lockFree, backedUp);
  }

  /** A run returns no error exactly when nothing fails, the last write of the metadata apart. */
  lemma CleanBackupExactly(w: World, lockFree: bool)
    requires |w.remote| == |KeysToBackup(w.instances)|
    ensures CleanBackup(w, lockFree) <==> NothingFails(w, lockFree)
  {
    if Ready(w) {
      CleanLockExactly(w, lockFree);
    }
  }

  // ---------------------------------------------------------------------------------------------
  // What it then leaves

  ghost predicate ValidBackup(s: State) {
    s.metadata.Some? && AllIntact(s.files, s.metadata.value)
  }

  /** Everything is recorded, found under its identifier and held in its file. */
  ghost predicate CompleteBackup(w: World, s: State) {
    |w.remote| == |KeysToBackup(w.instances)| && Complete(KeysToBackup(w.instances), w.remote, s.files, s.metadata)
  }

  lemma CleanUnlockLeaves(w: World, lockFree: bool, s: State)
    requires s.artifact && CleanUnlock(w, lockFree, true, s)
    ensures AllDone(Drained(w, s.metadata))
    ensures AfterUnlock(w, lockFree, true, s).files == Drained(w, s.metadata).files
    ensures AfterUnlock(w, lockFree, true, s).metadata ==
            if w.finishWrite.Written? then Drained(w, s.metadata).metadata else w.finishWrite.leftover
  {
  }

  lemma CleanBackupLeaves(w: World, lockFree: bool)
    requires CleanBackup(w, lockFree)
    ensures AllDone(Drained(w, FirstMetadata(w)))
    ensures BackupEnd(w, lockFree).files == Drained(w, FirstMetadata(w)).files
    ensures BackupEnd(w, lockFree).metadata ==
            if w.finishWrite.Written? then Drained(w, FirstMetadata(w)).metadata else w.finishWrite.leftover
  {
    CleanUnlockLeaves(w, lockFree, RunBackup(w, LockResult(w, lockFree, Created(w)).state).state);
  }

  /** An error-free run whose last metadata write succeeded leaves a complete and valid backup, provided that artifacts
      which share a file name have the same content. */
  lemma CleanBackupIsComplete(w: World, lockFree: bool)
    requires Possible(w) && CleanBackup(w, lockFree)
    requires SharedFilesAgree(KeysToBackup(w.instances), w.remote) && w.finishWrite.Written?
    ensures CompleteBackup(w, BackupEnd(w, lockFree))
    ensures ValidBackup(BackupEnd(w, lockFree))
  {
    CleanBackupLeaves(w, lockFree);
    SomethingToBackUp(w.instances);
    ErrorFreeDrainIsComplete(KeysToBackup(w.instances), w.remote, FirstMetadata(w), w.moves);
  }

  /** AddFinishTime does not report how its write went: whatever it leaves behind, the run stays error-free. */
  lemma FinishWriteIsSilent(w: World, lockFree: bool, result: WriteResult)
    requires Possible(w) && CleanBackup(w, lockFree)
    ensures Possible(w.(finishWrite := result)) && CleanBackup(w.(finishWrite := result), lockFree)
  {
    var w' := w.(finishWrite := result);
    SamePossible(w, w');
    CleanBackupExactly(w, lockFree);
    CleanBackupExactly(w', lockFree);
    SameNothingFails(w, lockFree, result);
  }

  lemma SameNothingFails(w: World, lockFree: bool, result: WriteResult)
    requires NothingFails(w, lockFree)
    ensures NothingFails(w.(finishWrite := result), lockFree)
  {
    var w' := w.(finishWrite := result);
    assert DirProblem(w', w.dirs) ==> DirProblem(w, w.dirs);
    assert Ready(w');
  }

  /** The world in which the last write, if it fails, leaves the given metadata file behind. */
  ghost function Leaving(w: World, leftover: Option<MetadataFile>): World {
    if w.finishWrite.Broken? then w.(finishWrite := Broken(leftover)) else w
  }

  /** So an error-free run leaves a complete backup, whatever a failed write may leave of the metadata file, if and only
      if that write succeeds; and the same goes for a valid one. */
  lemma CleanBackupIsCompleteExactly(w: World, lockFree: bool)
    requires Possible(w) && CleanBackup(w, lockFree) && SharedFilesAgree(KeysToBackup(w.instances), w.remote)
    ensures (forall leftover :: CompleteBackup(w, BackupEnd(Leaving(w, leftover), lockFree))) <==>
            w.finishWrite.Written?
    ensures (forall leftover :: ValidBackup(BackupEnd(Leaving(w, leftover), lockFree))) <==> w.finishWrite.Written?
  {
    if w.finishWrite.Written? {
      CleanBackupIsComplete(w, lockFree);
    } else {
      FinishWriteIsSilent(w, lockFree, Broken(None));
      CleanBackupLeaves(Leaving(w, None), lockFree);
      assert !CompleteBackup(w, BackupEnd(Leaving(w, None), lockFree));
      assert !ValidBackup(BackupEnd(Leaving(w, None), lockFree));
    }
  }

  lemma NothingIsFound(keys: seq<ArtifactKey>, remote: seq<seq<TarEntry>>, files: Files)
    ensures AllIntact(files, NOTHING_RECORDED)
    ensures forall key :: Lookup(NOTHING_RECORDED, key) == None
    ensures |keys| == |remote| > 0 ==> !Complete(keys, remote, files, Some(NOTHING_RECORDED))
  {
    if |keys| > 0 {
      assert Lookup(NOTHING_RECORDED, keys[0]) == None;
    }
  }

  /** A write that fails after truncating the file leaves metadata that records nothing.  The run returns no error and
      Valid accepts what is there, but nothing that was backed up is found any more. */
  lemma TruncatedMetadataIsAccepted(w: World, lockFree: bool)
    requires Possible(w) && CleanBackup(w, lockFree) && w.finishWrite == Broken(Some(NOTHING_RECORDED))
    ensures ValidBackup(BackupEnd(w, lockFree)) && !CompleteBackup(w, BackupEnd(w, lockFree))
    ensures BackupEnd(w, lockFree).metadata.Some?
    ensures forall key :: Lookup(BackupEnd(w, lockFree).metadata.value, key) == None
  {
    CleanBackupLeaves(w, lockFree);
    SomethingToBackUp(w.instances);
    NothingIsFound(KeysToBackup(w.instances), w.remote, BackupEnd(w, lockFree).files);
  }

  // ---------------------------------------------------------------------------------------------
  // Such runs exist

  /** Every check passes and nothing fails, except perhaps the last write of the metadata. */
  ghost predicate Faultless(w: World) {
    && Ready(w) && w.metadataWritten && |w.remote| == |KeysToBackup(w.instances)|
    && (forall call, j :: !w.fails(call, j))
    && (forall i :: !w.removeFails(i) && !w.sshFails(i))
  }

  /** The same world with one undisturbed download after the other. */
  ghost function InSequence(w: World): World {
    AllButMembers(|w.remote|, |w.remote|);
    w.(moves := Sequentially(w.remote, AllBut(|w.remote|, |w.remote|)))
  }

  /** ... and with the serial executor. */
  ghost function Undisturbed(w: World): World {
    Serialised(InSequence(w))
  }

  lemma SequenceIsDone(keys: seq<ArtifactKey>, remote: seq<seq<TarEntry>>, order: seq<nat>)
    requires |keys| == |remote| && Indices(order, |remote|) && NoDuplicates(order)
    requires forall i | 0 <= i < |remote| :: i in order
    ensures AllDone(AfterSequence(keys, remote, order))
  {
    forall i | 0 <= i < |keys| ensures AfterSequence(keys, remote, order).downloads[i].Done? {
      SequentialDownload(keys, remote, order, i);
    }
  }

  lemma InSequenceIsDone(w: World)
    requires Faultless(w)
    ensures AllDone(Drained(InSequence(w), FirstMetadata(w)))
  {
    AllButMembers(|w.remote|, |w.remote|);
    SequenceIsDone(KeysToBackup(w.instances), w.remote, AllBut(|w.remote|, |w.remote|));
  }

  lemma UndisturbedDownloads(w: World)
    requires Faultless(w)
    ensures AllDone(Drained(Undisturbed(w), FirstMetadata(w)))
  {
    InSequenceIsDone(w);
    EveryWorldIsPossible(InSequence(w));
  }

  lemma UndisturbedNothingFails(w: World, lockFree: bool)
    requires Faultless(w)
    ensures NothingFails(Undisturbed(w), lockFree)
  {
    UndisturbedDownloads(w);
    var w' := Undisturbed(w);
    assert DirProblem(w', w.dirs) ==> DirProblem(w, w.dirs);
    assert Ready(w');
  }

  /** In every deployment that passes the checks, whatever its artifacts hold, a backup in which nothing fails is
      possible and returns no error. */
  lemma FaultlessIsClean(w: World, lockFree: bool)
    requires Faultless(w)
    ensures Possible(Undisturbed(w)) && CleanBackup(Undisturbed(w), lockFree)
  {
    EveryWorldIsPossible(InSequence(w));
    UndisturbedNothingFails(w, lockFree);
    CleanBackupExactly(Undisturbed(w), lockFree);
  }

  /** In each of them, a last write that leaves no metadata, or empty metadata, is not noticed: the first backup is not
      valid, the second is valid and not complete. */
  lemma LostFinishTimeIsSilent(w: World, lockFree: bool)
    requires Faultless(w) && w.finishWrite.Broken?
    ensures Possible(Undisturbed(w)) && CleanBackup(Undisturbed(w), lockFree)
    ensures w.finishWrite.leftover == None ==> !ValidBackup(BackupEnd(Undisturbed(w), lockFree))
    ensures w.finishWrite.leftover == Some(NOTHING_RECORDED) ==>
              ValidBackup(BackupEnd(Undisturbed(w), lockFree)) &&
              !CompleteBackup(Undisturbed(w), BackupEnd(Undisturbed(w), lockFree))
  {
    FaultlessIsClean(w, lockFree);
    CleanBackupLeaves(Undisturbed(w), lockFree);
    if w.finishWrite.leftover == Some(NOTHING_RECORDED) {
      TruncatedMetadataIsAccepted(Undisturbed(w), lockFree);
    }
  }
}
