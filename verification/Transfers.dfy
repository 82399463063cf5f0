/** Moving artifacts (orchestrator/backup_download_executable.go, backup_upload_executable.go, artifact_copier.go).
    All downloads of a drain share the backup directory, so they are modelled as one machine over every interleaving. */
module Transfers {
  import opened Sequences
  import opened Checksums
  import opened Metadata
  import opened BackupDirectory

  /** Where one download stands; local is the checksum computed from the local copy. */
  datatype Progress =
    | Creating
    | Streaming
    | Summing
    | Comparing(local: Checksum)
    | Recording(local: Checksum)
    | Deleting(local: Checksum)
    | Done(local: Checksum)
    | DeleteFailed(local: Checksum)
    | Failed

  /** broken remembers that a write of the metadata file failed; removed, to which remote artifacts a delete was
      sent. */
  datatype Drain = Drain(files: Files, metadata: Option<MetadataFile>, downloads: seq<Progress>, broken: bool,
                         removed: set<nat>)

  /** How far a write to the local file got. */
  datatype Streamed = More | AllOfIt | Cut

  /** What the world answers to the next operation of a download. */
  datatype Answer = Succeeds | Fails | Streams(content: LocalFile, streamed: Streamed) | Writes(result: WriteResult)

  datatype Move = Move(task: nat, answer: Answer)

  function Start(artifacts: seq<ArtifactKey>, metadata: Option<MetadataFile>): Drain {
    Drain(map[], metadata, seq(|artifacts|, _ => Creating), false, {})
  }

  function To(s: Drain, i: nat, p: Progress): Drain
    requires i < |s.downloads|
  {
    s.(downloads := s.downloads[i := p])
  }

  /** One operation of one download.  An answer that does not fit the operation changes nothing. */
  function Play(artifacts: seq<ArtifactKey>, remote: seq<seq<TarEntry>>, s: Drain, move: Move): (s': Drain)
    requires |s.downloads| == |artifacts| == |remote|
    ensures |s'.downloads| == |artifacts|
    ensures forall j | 0 <= j < |artifacts| && j != move.task :: s'.downloads[j] == s.downloads[j]
  {
    var Move(i, answer) := move;
    if i >= |artifacts| then s
    else
      match (s.downloads[i], answer)
      case (Creating, Succeeds) => To(s.(files := s.files[FileName(artifacts[i]) := Tar([])]), i, Streaming)
      case (Streaming, Streams(content, streamed)) =>
        To(s.(files := s.files[FileName(artifacts[i]) := content]), i,
           match streamed case More => Streaming case AllOfIt => Summing case Cut => Failed)
      case (Summing, Succeeds) =>
        (match Recomputed(s.files, artifacts[i])
         case Some(local) => To(s, i, Comparing(local))
         case None => To(s, i, Failed))
      case (Comparing(local), Succeeds) =>
        To(s, i, if Agree(local, TarChecksum(remote[i])) then Recording(local) else Failed)
      case (Recording(local), Writes(result)) =>
        if s.metadata.None? then To(s, i, Failed)
        else
          (match result
           case Written => To(s.(metadata := Some(Add(s.metadata.value, artifacts[i], local))), i, Deleting(local))
           case Broken(leftover) => To(s.(metadata := leftover, broken := true), i, Failed))
      case (Deleting(local), Succeeds) => To(s.(removed := s.removed + {i}), i, Done(local))
      case (Deleting(local), Fails) => To(s.(removed := s.removed + {i}), i, DeleteFailed(local))
      case (Done(_), _) => s
      case (DeleteFailed(_), _) => s
      case (Failed, _) => s
      case (_, Fails) => To(s, i, Failed)
      case (_, _) => s
  }

  function PlayAll(artifacts: seq<ArtifactKey>, remote: seq<seq<TarEntry>>, s: Drain, moves: seq<Move>): (s': Drain)
    requires |s.downloads| == |artifacts| == |remote|
    ensures |s'.downloads| == |artifacts|
  {
    if moves == [] then s
    else Play(artifacts, remote, PlayAll(artifacts, remote, s, moves[..|moves| - 1]), moves[|moves| - 1])
  }

  // ---------------------------------------------------------------------------------------------
  // What every interleaving keeps

  /** The local checksum has been computed and nothing has failed before the record. */
  predicate Summed(p: Progress) {
    p.Comparing? || p.Recording? || p.Deleting? || p.Done? || p.DeleteFailed?
  }

  predicate Matched(p: Progress) {
    p.Recording? || IsRecorded(p)
  }

  predicate IsRecorded(p: Progress) {
    p.Deleting? || p.Done? || p.DeleteFailed?
  }

  ghost predicate DownloadInv(remote: seq<TarEntry>, removed: bool, p: Progress) {
    && (Summed(p) ==> NoEmptyDigest(p.local))
    && (Matched(p) ==> p.local == TarChecksum(remote))
    && (removed ==> p.Done? || p.DeleteFailed?)
  }

  /** Unless a write broke it, the metadata records exactly the downloads that got that far. */
  ghost predicate RecordsInv(artifacts: seq<ArtifactKey>, remote: seq<seq<TarEntry>>, s: Drain)
    requires |s.downloads| == |artifacts| == |remote|
  {
    && (s.metadata.None? ==> forall i | 0 <= i < |artifacts| :: !IsRecorded(s.downloads[i]))
    && (s.metadata.Some? ==>
        forall key, c :: Recorded(s.metadata.value, key, c) <==>
          exists i | 0 <= i < |artifacts| :: IsRecorded(s.downloads[i]) && artifacts[i] == key &&
            TarChecksum(remote[i]) == c)
    && (s.metadata.Some? ==> OneEntryEach(s.metadata.value.instances))
  }

  predicate SameFile(artifacts: seq<ArtifactKey>, i: nat, j: nat)
    requires i < |artifacts| && j < |artifacts|
  {
    FileName(artifacts[i]) == FileName(artifacts[j])
  }

  /** Once all downloads to one file have been summed, the last one to be summed saw what is in the file. */
  ghost predicate FileInv(artifacts: seq<ArtifactKey>, s: Drain, i: nat)
    requires |s.downloads| == |artifacts| && i < |artifacts|
  {
    (forall j | 0 <= j < |artifacts| && SameFile(artifacts, i, j) :: Summed(s.downloads[j])) ==>
      exists j | 0 <= j < |artifacts| && SameFile(artifacts, i, j) ::
        Summed(s.downloads[j]) && Recomputed(s.files, artifacts[i]) == Some(s.downloads[j].local)
  }

  ghost predicate DrainInv(artifacts: seq<ArtifactKey>, remote: seq<seq<TarEntry>>, s: Drain)
    requires |s.downloads| == |artifacts| == |remote|
  {
    && (forall i | 0 <= i < |artifacts| :: DownloadInv(remote[i], i in s.removed, s.downloads[i]))
    && (forall i | i in s.removed :: i < |artifacts|)
    && (s.broken ==> Failed in s.downloads)
    && (!s.broken ==> RecordsInv(artifacts, remote, s))
    && (forall i | 0 <= i < |artifacts| :: FileInv(artifacts, s, i))
  }

  lemma StartInv(artifacts: seq<ArtifactKey>, remote: seq<seq<TarEntry>>, metadata: Option<MetadataFile>)
    requires |artifacts| == |remote| && metadata in [None, Some(NOTHING_RECORDED)]
    ensures DrainInv(artifacts, remote, Start(artifacts, metadata))
  {
    var s := Start(artifacts, metadata);
    forall i | 0 <= i < |artifacts| ensures FileInv(artifacts, s, i) {
      assert SameFile(artifacts, i, i) && !Summed(s.downloads[i]);
    }
  }

  /** A download matches only what equals the remote artifact, and deletes only after it was recorded. */
  lemma PlayDownloads(artifacts: seq<ArtifactKey>, remote: seq<seq<TarEntry>>, s: Drain, move: Move, i: nat)
    requires |s.downloads| == |artifacts| == |remote| && i < |artifacts|
    requires DownloadInv(remote[i], i in s.removed, s.downloads[i])
    ensures var s' := Play(artifacts, remote, s, move);
            DownloadInv(remote[i], i in s'.removed, s'.downloads[i])
  {
    if move.task == i {
      PlayOwn(artifacts, remote, s, move);
    }
  }

  lemma PlayOwn(artifacts: seq<ArtifactKey>, remote: seq<seq<TarEntry>>, s: Drain, move: Move)
    requires |s.downloads| == |artifacts| == |remote| && move.task < |artifacts|
    requires DownloadInv(remote[move.task], move.task in s.removed, s.downloads[move.task])
    ensures var s' := Play(artifacts, remote, s, move);
            DownloadInv(remote[move.task], move.task in s'.removed, s'.downloads[move.task])
  {
    var i := move.task;
    if s.downloads[i].Summing? {
      PlaySumming(artifacts, remote, s, move);
    } else if s.downloads[i].Comparing? {
      PlayComparing(artifacts, remote, s, move);
    }
  }

  lemma PlayComparing(artifacts: seq<ArtifactKey>, remote: seq<seq<TarEntry>>, s: Drain, move: Move)
    requires |s.downloads| == |artifacts| == |remote| && move.task < |artifacts| && s.downloads[move.task].Comparing?
    requires NoEmptyDigest(s.downloads[move.task].local)
    ensures var s' := Play(artifacts, remote, s, move);
            && s'.removed == s.removed && !IsRecorded(s'.downloads[move.task])
            && (Summed(s'.downloads[move.task]) ==> s'.downloads[move.task].local == s.downloads[move.task].local)
            && (Matched(s'.downloads[move.task]) ==> s'.downloads[move.task].local == TarChecksum(remote[move.task]))
  {
    AgreeIsEqual(s.downloads[move.task].local, TarChecksum(remote[move.task]));
  }

  lemma PlaySumming(artifacts: seq<ArtifactKey>, remote: seq<seq<TarEntry>>, s: Drain, move: Move)
    requires |s.downloads| == |artifacts| == |remote| && move.task < |artifacts| && s.downloads[move.task].Summing?
    ensures var s' := Play(artifacts, remote, s, move);
            && s'.removed == s.removed && !Matched(s'.downloads[move.task])
            && (Summed(s'.downloads[move.task]) ==> NoEmptyDigest(s'.downloads[move.task].local))
  {
    if Recomputed(s.files, artifacts[move.task]).Some? {
      TarChecksumNoEmptyDigest(s.files[FileName(artifacts[move.task])].entries);
    }
  }

  /** A download writes only to its own file, only before it is summed, and is summed from what is there. */
  lemma PlayWrites(artifacts: seq<ArtifactKey>, remote: seq<seq<TarEntry>>, s: Drain, move: Move)
    requires |s.downloads| == |artifacts| == |remote| && move.task < |artifacts|
    ensures var s' := Play(artifacts, remote, s, move);
            var k := move.task;
            && (forall i | 0 <= i < |artifacts| && !SameFile(artifacts, i, k) ::
                  Recomputed(s'.files, artifacts[i]) == Recomputed(s.files, artifacts[i]))
            && (Summed(s'.downloads[k]) ==> s'.files == s.files)
  {
  }

  lemma PlaySums(artifacts: seq<ArtifactKey>, remote: seq<seq<TarEntry>>, s: Drain, move: Move)
    requires |s.downloads| == |artifacts| == |remote| && move.task < |artifacts| && !Summed(s.downloads[move.task])
    ensures var s', k := Play(artifacts, remote, s, move), move.task;
            Summed(s'.downloads[k]) ==> Recomputed(s'.files, artifacts[k]) == Some(s'.downloads[k].local)
  {
  }

  lemma PlayKeepsSum(artifacts: seq<ArtifactKey>, remote: seq<seq<TarEntry>>, s: Drain, move: Move)
    requires |s.downloads| == |artifacts| == |remote| && move.task < |artifacts| && Summed(s.downloads[move.task])
    ensures var s', k := Play(artifacts, remote, s, move), move.task;
            Summed(s'.downloads[k]) ==> s'.downloads[k].local == s.downloads[k].local
  {
  }

  lemma PlayFiles(artifacts: seq<ArtifactKey>, remote: seq<seq<TarEntry>>, s: Drain, move: Move, i: nat)
    requires |s.downloads| == |artifacts| == |remote| && i < |artifacts| && FileInv(artifacts, s, i)
    ensures FileInv(artifacts, Play(artifacts, remote, s, move), i)
  {
    if move.task < |artifacts| {
      PlayWrites(artifacts, remote, s, move);
      if Summed(s.downloads[move.task]) {
        PlayKeepsSum(artifacts, remote, s, move);
      } else {
        PlaySums(artifacts, remote, s, move);
      }
      FileInvKept(artifacts, s, Play(artifacts, remote, s, move), move.task, i);
    }
  }

  lemma FileInvKept(artifacts: seq<ArtifactKey>, s: Drain, s': Drain, k: nat, i: nat)
    requires |s.downloads| == |s'.downloads| == |artifacts| && i < |artifacts| && k < |artifacts|
    requires FileInv(artifacts, s, i)
    requires forall j | 0 <= j < |artifacts| && j != k :: s'.downloads[j] == s.downloads[j]
    requires !SameFile(artifacts, i, k) ==> Recomputed(s'.files, artifacts[i]) == Recomputed(s.files, artifacts[i])
    requires Summed(s'.downloads[k]) ==> s'.files == s.files
    requires Summed(s'.downloads[k]) && !Summed(s.downloads[k]) ==>
               Recomputed(s'.files, artifacts[k]) == Some(s'.downloads[k].local)
    requires Summed(s'.downloads[k]) && Summed(s.downloads[k]) ==> s'.downloads[k].local == s.downloads[k].local
    ensures FileInv(artifacts, s', i)
  {
    if forall j | 0 <= j < |artifacts| && SameFile(artifacts, i, j) :: Summed(s'.downloads[j]) {
      if SameFile(artifacts, i, k) && !Summed(s.downloads[k]) {
        assert Recomputed(s'.files, artifacts[i]) == Some(s'.downloads[k].local);
      } else {
        forall j | 0 <= j < |artifacts| && SameFile(artifacts, i, j) ensures Summed(s.downloads[j]) {
          assert Summed(s'.downloads[j]);
        }
        var j :| 0 <= j < |artifacts| && SameFile(artifacts, i, j) &&
                 Summed(s.downloads[j]) && Recomputed(s.files, artifacts[i]) == Some(s.downloads[j].local);
        assert Recomputed(s'.files, artifacts[i]) == Some(s'.downloads[j].local);
      }
    }
  }

  lemma PlayRecords(artifacts: seq<ArtifactKey>, remote: seq<seq<TarEntry>>, s: Drain, move: Move)
    requires |s.downloads| == |artifacts| == |remote| && DrainInv(artifacts, remote, s) && !s.broken
    ensures var s' := Play(artifacts, remote, s, move);
            !s'.broken ==> RecordsInv(artifacts, remote, s')
  {
    var s' := Play(artifacts, remote, s, move);
    var k := move.task;
    if k < |artifacts| && !s'.broken {
      assert DownloadInv(remote[k], k in s.removed, s.downloads[k]);
      if IsRecorded(s'.downloads[k]) && !IsRecorded(s.downloads[k]) {
        NewRecord(artifacts, remote, s, s', k);
      } else {
        SameRecords(artifacts, remote, s, s', k);
      }
    }
  }

  lemma SameRecords(artifacts: seq<ArtifactKey>, remote: seq<seq<TarEntry>>, s: Drain, s': Drain, k: nat)
    requires |s.downloads| == |s'.downloads| == |artifacts| == |remote| && k < |artifacts|
    requires RecordsInv(artifacts, remote, s) && s'.metadata == s.metadata
    requires forall j | 0 <= j < |artifacts| && j != k :: s'.downloads[j] == s.downloads[j]
    requires IsRecorded(s'.downloads[k]) <==> IsRecorded(s.downloads[k])
    ensures RecordsInv(artifacts, remote, s')
  {
    forall j | 0 <= j < |artifacts| ensures IsRecorded(s'.downloads[j]) <==> IsRecorded(s.downloads[j]) {
    }
  }

  lemma NewRecord(artifacts: seq<ArtifactKey>, remote: seq<seq<TarEntry>>, s: Drain, s': Drain, k: nat)
    requires |s.downloads| == |s'.downloads| == |artifacts| == |remote| && k < |artifacts|
    requires RecordsInv(artifacts, remote, s) && s.metadata.Some?
    requires s'.metadata == Some(Add(s.metadata.value, artifacts[k], TarChecksum(remote[k])))
    requires forall j | 0 <= j < |artifacts| && j != k :: s'.downloads[j] == s.downloads[j]
    requires IsRecorded(s'.downloads[k]) && !IsRecorded(s.downloads[k])
    ensures RecordsInv(artifacts, remote, s')
  {
    AddKeepsOneEntryEach(s.metadata.value, artifacts[k], TarChecksum(remote[k]));
    forall key, c
      ensures Recorded(s'.metadata.value, key, c) <==>
              exists i | 0 <= i < |artifacts| :: IsRecorded(s'.downloads[i]) && artifacts[i] == key &&
                TarChecksum(remote[i]) == c
    {
      RecordedAfterAdd(s.metadata.value, artifacts[k], TarChecksum(remote[k]), key, c);
    }
  }

  lemma PlayInv(artifacts: seq<ArtifactKey>, remote: seq<seq<TarEntry>>, s: Drain, move: Move)
    requires |s.downloads| == |artifacts| == |remote| && DrainInv(artifacts, remote, s)
    ensures DrainInv(artifacts, remote, Play(artifacts, remote, s, move))
  {
    var s' := Play(artifacts, remote, s, move);
    forall i | 0 <= i < |artifacts| ensures DownloadInv(remote[i], i in s'.removed, s'.downloads[i]) {
      PlayDownloads(artifacts, remote, s, move, i);
    }
    forall i | 0 <= i < |artifacts| ensures FileInv(artifacts, s', i) {
      PlayFiles(artifacts, remote, s, move, i);
    }
    if !s.broken {
      PlayRecords(artifacts, remote, s, move);
    }
    BrokenFailed(artifacts, remote, s, move);
  }

  lemma BrokenFailed(artifacts: seq<ArtifactKey>, remote: seq<seq<TarEntry>>, s: Drain, move: Move)
    requires |s.downloads| == |artifacts| == |remote|
    requires s.broken ==> Failed in s.downloads
    ensures var s' := Play(artifacts, remote, s, move);
            s'.broken ==> s.broken || Failed in s'.downloads
    ensures var s' := Play(artifacts, remote, s, move);
            s.broken ==> s'.broken && Failed in s'.downloads
  {
    var s' := Play(artifacts, remote, s, move);
    if s.broken {
      var i :| 0 <= i < |artifacts| && s.downloads[i] == Failed;
      assert s'.downloads[i] == Failed;
    } else if s'.broken {
      assert s'.downloads[move.task] == Failed;
    }
  }

  lemma {:induction false} AlwaysDrainInv(artifacts: seq<ArtifactKey>, remote: seq<seq<TarEntry>>,
                                          metadata: Option<MetadataFile>, moves: seq<Move>)
    requires |artifacts| == |remote| && metadata in [None, Some(NOTHING_RECORDED)]
    ensures DrainInv(artifacts, remote, PlayAll(artifacts, remote, Start(artifacts, metadata), moves))
  {
    if moves == [] {
      StartInv(artifacts, remote, metadata);
    } else {
      AlwaysDrainInv(artifacts, remote, metadata, moves[..|moves| - 1]);
      PlayInv(artifacts, remote, PlayAll(artifacts, remote, Start(artifacts, metadata), moves[..|moves| - 1]),
              moves[|moves| - 1]);
    }
  }

  // ---------------------------------------------------------------------------------------------
  // What a drain guarantees

  /** Artifacts that go to the same local file have the same content. */
  ghost predicate SharedFilesAgree(artifacts: seq<ArtifactKey>, remote: seq<seq<TarEntry>>)
    requires |artifacts| == |remote|
  {
    forall i, j | 0 <= i < |artifacts| && 0 <= j < |artifacts| && SameFile(artifacts, i, j) ::
      TarChecksum(remote[i]) == TarChecksum(remote[j])
  }

  predicate AllDone(s: Drain) {
    forall i | 0 <= i < |s.downloads| :: s.downloads[i].Done?
  }

  /** The backup is complete: everything is recorded, found under its identifier and held in its file. */
  ghost predicate Complete(artifacts: seq<ArtifactKey>, remote: seq<seq<TarEntry>>, files: Files,
                           metadata: Option<MetadataFile>)
    requires |artifacts| == |remote|
  {
    && metadata.Some?
    && HoldsRecords(files, metadata.value)
    && forall i | 0 <= i < |artifacts| ::
         && Lookup(metadata.value, artifacts[i]) == Some(TarChecksum(remote[i]))
         && Recomputed(files, artifacts[i]) == Some(TarChecksum(remote[i]))
  }

  lemma DoneFiles(artifacts: seq<ArtifactKey>, remote: seq<seq<TarEntry>>, s: Drain, i: nat)
    requires |s.downloads| == |artifacts| == |remote| && DrainInv(artifacts, remote, s) && i < |artifacts|
    requires AllDone(s) && SharedFilesAgree(artifacts, remote)
    ensures Recomputed(s.files, artifacts[i]) == Some(TarChecksum(remote[i]))
  {
    assert FileInv(artifacts, s, i);
    var j :| 0 <= j < |artifacts| && SameFile(artifacts, i, j) &&
             Summed(s.downloads[j]) && Recomputed(s.files, artifacts[i]) == Some(s.downloads[j].local);
    assert DownloadInv(remote[j], j in s.removed, s.downloads[j]);
  }

  lemma DoneLookup(artifacts: seq<ArtifactKey>, remote: seq<seq<TarEntry>>, s: Drain, i: nat)
    requires |s.downloads| == |artifacts| == |remote| && i < |artifacts|
    requires RecordsInv(artifacts, remote, s) && AllDone(s) && SharedFilesAgree(artifacts, remote)
    ensures s.metadata.Some? && Lookup(s.metadata.value, artifacts[i]) == Some(TarChecksum(remote[i]))
  {
    assert IsRecorded(s.downloads[i]);
    var file, key := s.metadata.value, artifacts[i];
    assert Recorded(file, key, TarChecksum(remote[i]));
    RecordedIsFound(file, key, TarChecksum(remote[i]));
    LookupIsRecorded(file, key);
    var j :| 0 <= j < |artifacts| && IsRecorded(s.downloads[j]) && artifacts[j] == key &&
             TarChecksum(remote[j]) == Lookup(file, key).value;
    assert SameFile(artifacts, i, j);
  }

  /** If no download of the drain failed, the backup is complete and Valid accepts it. */
  lemma ErrorFreeDrainIsComplete(artifacts: seq<ArtifactKey>, remote: seq<seq<TarEntry>>,
                                 metadata: Option<MetadataFile>, moves: seq<Move>)
    requires |artifacts| == |remote| > 0 && metadata in [None, Some(NOTHING_RECORDED)]
    requires SharedFilesAgree(artifacts, remote)
    requires AllDone(PlayAll(artifacts, remote, Start(artifacts, metadata), moves))
    ensures var s := PlayAll(artifacts, remote, Start(artifacts, metadata), moves);
            Complete(artifacts, remote, s.files, s.metadata) && AllIntact(s.files, s.metadata.value)
  {
    AlwaysDrainInv(artifacts, remote, metadata, moves);
    var s := PlayAll(artifacts, remote, Start(artifacts, metadata), moves);
    assert !s.broken;
    forall i | 0 <= i < |artifacts|
      ensures s.metadata.Some? && Lookup(s.metadata.value, artifacts[i]) == Some(TarChecksum(remote[i]))
      ensures Recomputed(s.files, artifacts[i]) == Some(TarChecksum(remote[i]))
    {
      DoneLookup(artifacts, remote, s, i);
      DoneFiles(artifacts, remote, s, i);
    }
    assert s.downloads[0].Done?;
    HoldsIsIntact(s.files, s.metadata.value);
  }

  // ---------------------------------------------------------------------------------------------
  // The condition on shared files is needed

  lemma PlayLast(artifacts: seq<ArtifactKey>, remote: seq<seq<TarEntry>>, s: Drain, moves: seq<Move>, move: Move)
    requires |s.downloads| == |artifacts| == |remote|
    ensures PlayAll(artifacts, remote, s, moves + [move]) ==
            Play(artifacts, remote, PlayAll(artifacts, remote, s, moves), move)
  {
    assert (moves + [move])[..|moves|] == moves;
  }

  lemma {:induction false} PlayConcat(artifacts: seq<ArtifactKey>, remote: seq<seq<TarEntry>>, s: Drain, a: seq<Move>,
                                      b: seq<Move>)
    requires |s.downloads| == |artifacts| == |remote|
    ensures PlayAll(artifacts, remote, s, a + b) == PlayAll(artifacts, remote, PlayAll(artifacts, remote, s, a), b)
  {
    if b == [] {
      assert a + b == a;
    } else {
      assert a + b == (a + b[..|b| - 1]) + [b[|b| - 1]];
      PlayLast(artifacts, remote, s, a + b[..|b| - 1], b[|b| - 1]);
      PlayConcat(artifacts, remote, s, a, b[..|b| - 1]);
    }
  }

  lemma PlayThree(artifacts: seq<ArtifactKey>, remote: seq<seq<TarEntry>>, s: Drain, a: Move, b: Move, c: Move)
    requires |s.downloads| == |artifacts| == |remote|
    ensures PlayAll(artifacts, remote, s, [a, b, c]) ==
            Play(artifacts, remote, Play(artifacts, remote, Play(artifacts, remote, s, a), b), c)
  {
    PlayLast(artifacts, remote, s, [], a);
    PlayLast(artifacts, remote, s, [a], b);
    PlayLast(artifacts, remote, s, [a, b], c);
    assert [] + [a] == [a] && [a] + [b] == [a, b] && [a, b] + [c] == [a, b, c];
  }

  /** One download from start to end without a fault: fetch the content and sum it, then compare, record and delete. */
  ghost function Fetch(i: nat, content: seq<TarEntry>): seq<Move> {
    [Move(i, Succeeds), Move(i, Streams(Tar(content), AllOfIt)), Move(i, Succeeds)]
  }

  ghost function Settle(i: nat): seq<Move> {
    [Move(i, Succeeds), Move(i, Writes(Written)), Move(i, Succeeds)]
  }

  lemma FetchResult(artifacts: seq<ArtifactKey>, remote: seq<seq<TarEntry>>, s: Drain, i: nat)
    requires |s.downloads| == |artifacts| == |remote| && i < |artifacts| && s.downloads[i].Creating?
    ensures PlayAll(artifacts, remote, s, Fetch(i, remote[i])) ==
            s.(downloads := s.downloads[i := Comparing(TarChecksum(remote[i]))],
               files := s.files[FileName(artifacts[i]) := Tar(remote[i])])
  {
    var m := Fetch(i, remote[i]);
    PlayThree(artifacts, remote, s, m[0], m[1], m[2]);
    var s1 := Play(artifacts, remote, s, m[0]);
    var s2 := Play(artifacts, remote, s1, m[1]);
    assert s2.downloads == s.downloads[i := Summing] && s2.files == s.files[FileName(artifacts[i]) := Tar(remote[i])];
  }

  lemma SettleResult(artifacts: seq<ArtifactKey>, remote: seq<seq<TarEntry>>, s: Drain, i: nat)
    requires |s.downloads| == |artifacts| == |remote| && i < |artifacts| && s.metadata.Some?
    requires s.downloads[i] == Comparing(TarChecksum(remote[i]))
    ensures var s' := PlayAll(artifacts, remote, s, Settle(i));
            && s'.downloads == s.downloads[i := Done(TarChecksum(remote[i]))]
            && s'.files == s.files && s'.metadata.Some?
  {
    var m := Settle(i);
    PlayThree(artifacts, remote, s, m[0], m[1], m[2]);
    TarChecksumNoEmptyDigest(remote[i]);
    AgreeIsEqual(TarChecksum(remote[i]), TarChecksum(remote[i]));
    var s1 := Play(artifacts, remote, s, m[0]);
    assert s1.downloads == s.downloads[i := Recording(TarChecksum(remote[i]))];
  }

  lemma FaultlessResult(artifacts: seq<ArtifactKey>, remote: seq<seq<TarEntry>>, s: Drain, i: nat)
    requires |s.downloads| == |artifacts| == |remote| && i < |artifacts| && s.metadata.Some?
    requires s.downloads[i].Creating?
    ensures var s' := PlayAll(artifacts, remote, s, Fetch(i, remote[i]) + Settle(i));
            && s'.downloads == s.downloads[i := Done(TarChecksum(remote[i]))]
            && s'.metadata.Some? && Recomputed(s'.files, artifacts[i]) == Some(TarChecksum(remote[i]))
  {
    PlayConcat(artifacts, remote, s, Fetch(i, remote[i]), Settle(i));
    FetchResult(artifacts, remote, s, i);
    SettleResult(artifacts, remote, PlayAll(artifacts, remote, s, Fetch(i, remote[i])), i);
  }

  ghost predicate Indices(order: seq<nat>, n: nat) {
    forall k | 0 <= k < |order| :: order[k] < n
  }

  /** The downloads one after the other, in the given order. */
  ghost function Sequentially(remote: seq<seq<TarEntry>>, order: seq<nat>): seq<Move>
    requires Indices(order, |remote|)
  {
    if order == [] then []
    else
      var last := order[|order| - 1];
      Sequentially(remote, order[..|order| - 1]) + (Fetch(last, remote[last]) + Settle(last))
  }

  ghost function AfterSequence(artifacts: seq<ArtifactKey>, remote: seq<seq<TarEntry>>, order: seq<nat>): (s: Drain)
    requires |artifacts| == |remote| && Indices(order, |remote|)
    ensures |s.downloads| == |artifacts|
  {
    PlayAll(artifacts, remote, Start(artifacts, Some(NOTHING_RECORDED)), Sequentially(remote, order))
  }

  lemma OneMore(artifacts: seq<ArtifactKey>, remote: seq<seq<TarEntry>>, order: seq<nat>, last: nat)
    requires |artifacts| == |remote| && Indices(order, |remote|) && last < |remote|
    requires var s := AfterSequence(artifacts, remote, order); s.downloads[last].Creating? && s.metadata.Some?
    ensures var s, s' := AfterSequence(artifacts, remote, order), AfterSequence(artifacts, remote, order + [last]);
            && s'.downloads == s.downloads[last := Done(TarChecksum(remote[last]))]
            && s'.metadata.Some? && Recomputed(s'.files, artifacts[last]) == Some(TarChecksum(remote[last]))
  {
    assert (order + [last])[..|order|] == order;
    PlayConcat(artifacts, remote, Start(artifacts, Some(NOTHING_RECORDED)), Sequentially(remote, order),
               Fetch(last, remote[last]) + Settle(last));
    FaultlessResult(artifacts, remote, AfterSequence(artifacts, remote, order), last);
  }

  lemma {:induction false} SequentialDownload(artifacts: seq<ArtifactKey>, remote: seq<seq<TarEntry>>, order: seq<nat>,
                                              i: nat)
    requires |artifacts| == |remote| && NoDuplicates(order) && Indices(order, |remote|) && i < |artifacts|
    ensures AfterSequence(artifacts, remote, order).metadata.Some?
    ensures AfterSequence(artifacts, remote, order).downloads[i] ==
            if i in order then Done(TarChecksum(remote[i])) else Creating
    decreases |order|
  {
    if order != [] {
      var init, last := order[..|order| - 1], order[|order| - 1];
      SequentialDownload(artifacts, remote, init, i);
      SequentialDownload(artifacts, remote, init, last);
      OneMore(artifacts, remote, init, last);
      assert order == init + [last];
    }
  }

  ghost function AllBut(n: nat, j: nat): seq<nat> {
    if n == 0 then [] else AllBut(n - 1, j) + if n - 1 == j then [] else [n - 1]
  }

  lemma {:induction false} AllButMembers(n: nat, j: nat)
    ensures forall i: nat :: i in AllBut(n, j) <==> i < n && i != j
    ensures NoDuplicates(AllBut(n, j)) && Indices(AllBut(n, j), n)
  {
    if n > 0 {
      AllButMembers(n - 1, j);
    }
    forall k | 0 <= k < |AllBut(n, j)| ensures AllBut(n, j)[k] < n {
      assert AllBut(n, j)[k] in AllBut(n, j);
    }
  }

  /** Two artifacts of different content that go to the same file: some drain without any error leaves an invalid
      backup. */
  lemma SharedFileSpoils(artifacts: seq<ArtifactKey>, remote: seq<seq<TarEntry>>, i: nat, j: nat)
    returns (moves: seq<Move>)
    requires |artifacts| == |remote| && i < |artifacts| && j < |artifacts| && SameFile(artifacts, i, j)
    requires TarChecksum(remote[i]) != TarChecksum(remote[j])
    ensures var s := PlayAll(artifacts, remote, Start(artifacts, Some(NOTHING_RECORDED)), moves);
            AllDone(s) && s.metadata.Some? && !AllIntact(s.files, s.metadata.value)
  {
    AllButMembers(|artifacts|, j);
    var others := AllBut(|artifacts|, j);
    var order := others + [j];
    NoDuplicatesAppend(others, j);
    moves := Sequentially(remote, order);
    SequentialDownload(artifacts, remote, others, j);
    OneMore(artifacts, remote, others, j);
    AlwaysDrainInv(artifacts, remote, Some(NOTHING_RECORDED), moves);
    var s := PlayAll(artifacts, remote, Start(artifacts, Some(NOTHING_RECORDED)), moves);
    forall k | 0 <= k < |artifacts| ensures s.downloads[k].Done? {
      SequentialDownload(artifacts, remote, order, k);
      assert k in order;
    }
    assert !s.broken && IsRecorded(s.downloads[i]);
    assert Recorded(s.metadata.value, artifacts[i], TarChecksum(remote[i]));
    assert Recomputed(s.files, artifacts[j]) == Some(TarChecksum(remote[j]));
    SpoiledRecord(s.files, s.metadata.value, artifacts[i], TarChecksum(remote[i]));
  }

  lemma SpoiledRecord(files: Files, metadata: MetadataFile, key: ArtifactKey, checksum: Checksum)
    requires Recorded(metadata, key, checksum)
    requires Recomputed(files, key).Some? && Recomputed(files, key) != Some(checksum)
    ensures !AllIntact(files, metadata)
  {
    match key
    case Custom(name) =>
      CustomIntactExactly(files, ArtifactMetadata(name, checksum));
    case Default(instance, index, name) =>
      var e :| e in metadata.instances && e.name == instance && e.index == index &&
        RecordedNamed(e.artifacts, name, checksum);
      DefaultIntactExactly(files, e, ArtifactMetadata(name, checksum));
  }

  ghost predicate EveryErrorFreeDrainIsValid(artifacts: seq<ArtifactKey>, remote: seq<seq<TarEntry>>)
    requires |artifacts| == |remote|
  {
    forall moves ::
      var s := PlayAll(artifacts, remote, Start(artifacts, Some(NOTHING_RECORDED)), moves);
      AllDone(s) ==> s.metadata.Some? && AllIntact(s.files, s.metadata.value)
  }

  lemma {:induction false} NothingToPlay(artifacts: seq<ArtifactKey>, remote: seq<seq<TarEntry>>, s: Drain,
                                         moves: seq<Move>)
    requires |s.downloads| == |artifacts| == |remote| == 0
    ensures PlayAll(artifacts, remote, s, moves) == s
  {
    if moves != [] {
      NothingToPlay(artifacts, remote, s, moves[..|moves| - 1]);
      var last: Move := moves[|moves| - 1];
      assert last.task >= |artifacts|;
      assert Play(artifacts, remote, s, last) == s;
    }
  }

  /** An error-free drain always leaves a valid backup exactly when artifacts that share a file name have equal
      content. */
  lemma DrainIsValidExactly(artifacts: seq<ArtifactKey>, remote: seq<seq<TarEntry>>)
    requires |artifacts| == |remote|
    ensures EveryErrorFreeDrainIsValid(artifacts, remote) <==> SharedFilesAgree(artifacts, remote)
  {
    if SharedFilesAgree(artifacts, remote) {
      forall moves
        ensures var s := PlayAll(artifacts, remote, Start(artifacts, Some(NOTHING_RECORDED)), moves);
                AllDone(s) ==> s.metadata.Some? && AllIntact(s.files, s.metadata.value)
      {
        if |artifacts| == 0 {
          NothingToPlay(artifacts, remote, Start(artifacts, Some(NOTHING_RECORDED)), moves);
        } else if AllDone(PlayAll(artifacts, remote, Start(artifacts, Some(NOTHING_RECORDED)), moves)) {
          ErrorFreeDrainIsComplete(artifacts, remote, Some(NOTHING_RECORDED), moves);
        }
      }
    } else {
      var i, j :| 0 <= i < |artifacts| && 0 <= j < |artifacts| && SameFile(artifacts, i, j) &&
                  TarChecksum(remote[i]) != TarChecksum(remote[j]);
      var moves := SharedFileSpoils(artifacts, remote, i, j);
    }
  }

  // ---------------------------------------------------------------------------------------------
  // One operation of a download on the directory that all downloads share

  /** The directory is in the state of the machine. */
  ghost predicate Mirrors(directory: Directory, s: Drain)
    reads directory
  {
    directory.files == s.files && directory.metadata == s.metadata
  }

  /** CreateArtifact and StreamFromRemote. */
  method FetchSome(directory: Directory, artifacts: seq<ArtifactKey>, remote: seq<seq<TarEntry>>, move: Move,
                   ghost s: Drain, p: Progress) returns (p': Progress)
    requires |s.downloads| == |artifacts| == |remote| && move.task < |artifacts| && Mirrors(directory, s)
    requires p == s.downloads[move.task] && (p.Creating? || p.Streaming?)
    modifies directory
    ensures Mirrors(directory, Play(artifacts, remote, s, move))
    ensures p' == Play(artifacts, remote, s, move).downloads[move.task]
  {
    var file := FileName(artifacts[move.task]);
    p' := p;
    match move.answer {
      case Fails =>
        p' := Failed;
      case Succeeds =>
        if p.Creating? {
          directory.files := directory.files[file := Tar([])];
          p' := Streaming;
        }
      case Streams(content, streamed) =>
        if p.Streaming? {
          directory.files := directory.files[file := content];
          p' := match streamed case More => Streaming case AllOfIt => Summing case Cut => Failed;
        }
      case Writes(_) =>
    }
  }

  /** compareChecksums. */
  method CompareSome(directory: Directory, artifacts: seq<ArtifactKey>, remote: seq<seq<TarEntry>>, move: Move,
                     ghost s: Drain, p: Progress) returns (p': Progress)
    requires |s.downloads| == |artifacts| == |remote| && move.task < |artifacts| && Mirrors(directory, s)
    requires p == s.downloads[move.task] && (p.Summing? || p.Comparing?)
    ensures Mirrors(directory, Play(artifacts, remote, s, move))
    ensures p' == Play(artifacts, remote, s, move).downloads[move.task]
  {
    match move.answer {
      case Fails =>
        p' := Failed;
      case Succeeds =>
        if p.Summing? {
          var local := directory.CalculateChecksum(artifacts[move.task]);
          p' := if local.Some? then Comparing(local.value) else Failed;
        } else {
          var matched, _ := Match(p.local, TarChecksum(remote[move.task]));
          p' := if matched then Recording(p.local) else Failed;
        }
      case _ =>
        p' := p;
    }
  }

  /** AddChecksum and Delete. */
  method SettleSome(directory: Directory, artifacts: seq<ArtifactKey>, remote: seq<seq<TarEntry>>, move: Move,
                    ghost s: Drain, p: Progress) returns (p': Progress)
    requires |s.downloads| == |artifacts| == |remote| && move.task < |artifacts| && Mirrors(directory, s)
    requires p == s.downloads[move.task] && (p.Recording? || p.Deleting?)
    modifies directory
    ensures Mirrors(directory, Play(artifacts, remote, s, move))
    ensures p' == Play(artifacts, remote, s, move).downloads[move.task]
  {
    p' := p;
    match move.answer {
      case Fails =>
        p' := if p.Deleting? then DeleteFailed(p.local) else Failed;
      case Succeeds =>
        p' := if p.Deleting? then Done(p.local) else p;
      case Writes(result) =>
        if p.Recording? {
          var failed := directory.AddChecksum(artifacts[move.task], p.local, result);
          p' := if failed then Failed else Deleting(p.local);
        }
      case Streams(_, _) =>
    }
  }

  /** The next operation of one download. */
  method Operate(directory: Directory, artifacts: seq<ArtifactKey>, remote: seq<seq<TarEntry>>, move: Move,
                 ghost s: Drain, p: Progress) returns (p': Progress)
    requires |s.downloads| == |artifacts| == |remote| && move.task < |artifacts| && Mirrors(directory, s)
    requires p == s.downloads[move.task]
    modifies directory
    ensures Mirrors(directory, Play(artifacts, remote, s, move))
    ensures p' == Play(artifacts, remote, s, move).downloads[move.task]
  {
    if p.Creating? || p.Streaming? {
      p' := FetchSome(directory, artifacts, remote, move, s, p);
    } else if p.Summing? || p.Comparing? {
      p' := CompareSome(directory, artifacts, remote, move, s, p);
    } else if p.Recording? || p.Deleting? {
      p' := SettleSome(directory, artifacts, remote, move, s, p);
    } else {
      p' := p;
    }
  }

  // ---------------------------------------------------------------------------------------------
  // The executables themselves, one at a time on the directory object

  /** The faults one download meets, in the order in which its operations can meet them. */
  datatype DownloadFaults = DownloadFaults(
    created: bool, sized: bool, content: LocalFile, streamed: bool, remoteSummed: bool, write: WriteResult,
    deleted: bool)

  function Reply(ok: bool): Answer {
    if ok then Succeeds else Fails
  }

  /** The answers of the faults to the operations of one download, in order. */
  function Replies(faults: DownloadFaults): seq<Answer> {
    [Reply(faults.created),
     if faults.sized then Streams(faults.content, if faults.streamed then AllOfIt else Cut) else Fails,
     Succeeds, Reply(faults.remoteSummed), Writes(faults.write), Reply(faults.deleted)]
  }

  /** One download alone, as a run of the machine. */
  function Alone(key: ArtifactKey, remote: seq<TarEntry>, s: Drain, answers: seq<Answer>): (s': Drain)
    requires |s.downloads| == 1
    ensures |s'.downloads| == 1
    decreases |answers|
  {
    if answers == [] then s
    else Alone(key, remote, Play([key], [remote], s, Move(0, answers[0])), answers[1..])
  }

  function MovesOf(answers: seq<Answer>): seq<Move> {
    seq(|answers|, n requires 0 <= n < |answers| => Move(0, answers[n]))
  }

  lemma {:induction false} AloneIsPlayed(key: ArtifactKey, remote: seq<TarEntry>, s: Drain, answers: seq<Answer>)
    requires |s.downloads| == 1
    ensures Alone(key, remote, s, answers) == PlayAll([key], [remote], s, MovesOf(answers))
    decreases |answers|
  {
    var moves := MovesOf(answers);
    if answers != [] {
      var later := answers[1..];
      var rest := MovesOf(later);
      AloneIsPlayed(key, remote, Play([key], [remote], s, moves[0]), later);
      PlayConcat([key], [remote], s, [moves[0]], rest);
      PlayLast([key], [remote], s, [], moves[0]);
      assert [] + [moves[0]] == [moves[0]];
      assert moves == [moves[0]] + rest;
    }
  }

  lemma {:induction false} FailedStays(key: ArtifactKey, remote: seq<TarEntry>, s: Drain, answers: seq<Answer>)
    requires |s.downloads| == 1 && s.downloads[0].Failed?
    ensures Alone(key, remote, s, answers) == s
  {
    if answers != [] {
      FailedStays(key, remote, s, answers[1..]);
    }
  }

  /** backup_download_executable.go Execute: what it does is the run of the machine under the given faults. */
  method DownloadArtifact(directory: Directory, key: ArtifactKey, remote: seq<TarEntry>, faults: DownloadFaults)
    returns (failed: bool, removed: bool)
    modifies directory
    ensures var s := Alone(key, remote, Drain(old(directory.files), old(directory.metadata), [Creating], false, {}),
                           Replies(faults));
            && directory.files == s.files && directory.metadata == s.metadata
            && (failed <==> !s.downloads[0].Done?)
            && (removed <==> 0 in s.removed)
    // What it comes to: which faults let it succeed, delete and record, and what is left in the file.
    ensures directory.files ==
            if faults.created
            then old(directory.files)[FileName(key) := if faults.sized then faults.content else Tar([])]
            else old(directory.files)
    ensures failed <==>
            !(faults.created && faults.sized && faults.streamed && faults.content.Tar? &&
              TarChecksum(faults.content.entries) == TarChecksum(remote) && faults.remoteSummed &&
              old(directory.metadata).Some? && faults.write.Written? && faults.deleted)
    ensures removed <==>
            && faults.created && faults.sized && faults.streamed && faults.content.Tar?
            && TarChecksum(faults.content.entries) == TarChecksum(remote) && faults.remoteSummed
            && old(directory.metadata).Some? && faults.write.Written?
    ensures directory.metadata ==
            if faults.created && faults.sized && faults.streamed && faults.content.Tar? &&
               TarChecksum(faults.content.entries) == TarChecksum(remote) && faults.remoteSummed &&
               old(directory.metadata).Some?
            then
              match faults.write
              case Written => Some(Add(old(directory.metadata).value, key, TarChecksum(remote)))
              case Broken(leftover) => leftover
            else old(directory.metadata)
  {
    ghost var answers, s := Replies(faults), Drain(directory.files, directory.metadata, [Creating], false, {});
    removed := false;
    ghost var s1 := Play([key], [remote], s, Move(0, answers[0]));
    if !faults.created {
      FailedStays(key, remote, s1, answers[1..]);
      return true, removed;
    }
    directory.files := directory.files[FileName(key) := Tar([])];
    ghost var s2 := Play([key], [remote], s1, Move(0, answers[1]));
    assert answers[1..][1..] == answers[2..];
    if !faults.sized {
      FailedStays(key, remote, s2, answers[2..]);
      return true, removed;
    }
    directory.files := directory.files[FileName(key) := faults.content];
    if !faults.streamed {
      FailedStays(key, remote, s2, answers[2..]);
      return true, removed;
    }
    failed, removed := SumAndSettle(directory, key, remote, faults, s2);
  }

  /** compareChecksums, AddChecksum and Delete. */
  method SumAndSettle(directory: Directory, key: ArtifactKey, remote: seq<TarEntry>, faults: DownloadFaults,
                      ghost s: Drain)
    returns (failed: bool, removed: bool)
    requires s == Drain(directory.files, directory.metadata, [Summing], false, {})
    modifies directory
    ensures var s' := Alone(key, remote, s, Replies(faults)[2..]);
            && directory.files == s'.files && directory.metadata == s'.metadata
            && (failed <==> !s'.downloads[0].Done?)
            && (removed <==> 0 in s'.removed)
    ensures directory.files == old(directory.files)
    ensures removed <==>
            && Recomputed(old(directory.files), key) == Some(TarChecksum(remote)) && faults.remoteSummed
            && old(directory.metadata).Some? && faults.write.Written?
    ensures failed <==> !(removed && faults.deleted)
    ensures directory.metadata ==
            if Recomputed(old(directory.files), key) == Some(TarChecksum(remote)) && faults.remoteSummed &&
               old(directory.metadata).Some?
            then
              match faults.write
              case Written => Some(Add(old(directory.metadata).value, key, TarChecksum(remote)))
              case Broken(leftover) => leftover
            else old(directory.metadata)
  {
    ghost var answers := Replies(faults)[2..];
    ghost var s1 := Play([key], [remote], s, Move(0, answers[0]));
    var local := directory.CalculateChecksum(key);
    if local.None? {
      FailedStays(key, remote, s1, answers[1..]);
      return true, false;
    }
    ghost var s2 := Play([key], [remote], s1, Move(0, answers[1]));
    assert answers[1..][1..] == answers[2..];
    if !faults.remoteSummed {
      FailedStays(key, remote, s2, answers[2..]);
      return true, false;
    }
    var matched, _ := Match(local.value, TarChecksum(remote));
    TarChecksumNoEmptyDigest(directory.files[FileName(key)].entries);
    AgreeIsEqual(local.value, TarChecksum(remote));
    if !matched {
      FailedStays(key, remote, s2, answers[2..]);
      return true, false;
    }
    failed, removed := RecordAndDelete(directory, key, remote, local.value, faults, s2);
  }

  method RecordAndDelete(directory: Directory, key: ArtifactKey, remote: seq<TarEntry>, local: Checksum,
                         faults: DownloadFaults,
                         ghost s: Drain)
    returns (failed: bool, removed: bool)
    requires s == Drain(directory.files, directory.metadata, [Recording(local)], false, {})
    modifies directory
    ensures var s' := Alone(key, remote, s, [Writes(faults.write), Reply(faults.deleted)]);
            && directory.files == s'.files && directory.metadata == s'.metadata
            && (failed <==> !s'.downloads[0].Done?)
            && (removed <==> 0 in s'.removed)
    ensures directory.files == old(directory.files)
    ensures removed <==> old(directory.metadata).Some? && faults.write.Written?
    ensures failed <==> !(removed && faults.deleted)
    ensures directory.metadata ==
            if old(directory.metadata).None? then None
            else
              match faults.write
              case Written => Some(Add(old(directory.metadata).value, key, local))
              case Broken(leftover) => leftover
  {
    ghost var answers := [Writes(faults.write), Reply(faults.deleted)];
    ghost var s1 := Play([key], [remote], s, Move(0, answers[0]));
    assert answers[1..][0] == answers[1] && answers[1..][1..] == [];
    failed := directory.AddChecksum(key, local, faults.write);
    if failed {
      FailedStays(key, remote, s1, answers[1..]);
      return true, false;
    }
    ghost var s2 := Play([key], [remote], s1, Move(0, answers[1]));
    assert Alone(key, remote, s1, answers[1..]) == Alone(key, remote, s2, []) == s2;
    return !faults.deleted, true;
  }

  /** What one upload meets: readable and sized, whether an existing local file can be opened and its size taken; made,
      whether the remote directory came to exist; streamed, whether the copy succeeded; remote, the checksum of what
      arrived. */
  datatype UploadFaults = UploadFaults(readable: bool, sized: bool, made: bool, streamed: bool,
                                       remote: Option<Checksum>)

  /** The checksum an upload is compared against: a missing record reads as the empty map. */
  function Fetched(metadata: MetadataFile, key: ArtifactKey): Checksum {
    match Lookup(metadata, key)
    case Some(c) => c
    case None => map[]
  }

  /** The local file is there and can be opened. */
  predicate Opens(files: Files, key: ArtifactKey, faults: UploadFaults) {
    FileName(key) in files && faults.readable && faults.sized
  }

  predicate Marks(files: Files, key: ArtifactKey, faults: UploadFaults) {
    Opens(files, key, faults) && faults.streamed
  }

  /** The upload leaves an artifact directory on the instance. */
  predicate MakesDirectory(files: Files, key: ArtifactKey, faults: UploadFaults) {
    Opens(files, key, faults) && (faults.made || faults.streamed)
  }

  predicate Uploaded(files: Files, metadata: Option<MetadataFile>, key: ArtifactKey, faults: UploadFaults) {
    && Marks(files, key, faults)
    && metadata.Some? && faults.remote.Some?
    && Agree(Fetched(metadata.value, key), faults.remote.value)
  }

  /** backup_upload_executable.go Execute: the instance is marked as soon as the copy succeeded. */
  method UploadArtifact(directory: Directory, key: ArtifactKey, faults: UploadFaults)
    returns (failed: bool, marked: bool)
    ensures failed <==> !Uploaded(directory.files, directory.metadata, key, faults)
    ensures marked <==> Marks(directory.files, key, faults)
    ensures marked <==> FileName(key) in directory.files && faults.readable && faults.sized && faults.streamed
    ensures failed <==>
            !(marked && directory.metadata.Some? && faults.remote.Some? &&
              Agree(match Lookup(directory.metadata.value, key) case Some(c) => c case None => map[],
                    faults.remote.value))
  {
    if FileName(key) !in directory.files || !faults.readable {
      return true, false;
    }
    if !faults.sized || !faults.streamed {
      return true, false;
    }
    marked := true;
    var local := directory.FetchChecksum(key);
    if local.None? || faults.remote.None? {
      return true, marked;
    }
    var matched, _ := Match(local.value, faults.remote.value);
    return !matched, marked;
  }
}
