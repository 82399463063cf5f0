/** What becomes of the record of a download between the moment it is written and the moment the remote artifact is
    deleted (orchestrator/backup_download_executable.go). */
module DrainRecords {
  import opened Sequences
  import opened Checksums
  import opened Metadata
  import opened BackupDirectory
  import opened Transfers

  /** The metadata records the checksum of the artifact. */
  ghost predicate Holds(artifacts: seq<ArtifactKey>, remote: seq<seq<TarEntry>>, s: Drain, i: nat)
    requires |artifacts| == |remote| && i < |artifacts|
  {
    s.metadata.Some? && Recorded(s.metadata.value, artifacts[i], TarChecksum(remote[i]))
  }

  // ---------------------------------------------------------------------------------------------
  // The record comes before the delete

  /** The last of the moves writes the record of the download. */
  ghost predicate JustRecorded(artifacts: seq<ArtifactKey>, remote: seq<seq<TarEntry>>, metadata: Option<MetadataFile>,
                               moves: seq<Move>, i: nat)
    requires |artifacts| == |remote| && i < |artifacts|
  {
    && moves != []
    && !IsRecorded(PlayAll(artifacts, remote, Start(artifacts, metadata), moves[..|moves| - 1]).downloads[i])
    && PlayAll(artifacts, remote, Start(artifacts, metadata), moves).downloads[i].Deleting?
  }

  /** A download becomes recorded by a write that succeeds, and is then next to delete. */
  lemma BecomesRecordedHow(artifacts: seq<ArtifactKey>, remote: seq<seq<TarEntry>>, s: Drain, move: Move, i: nat)
    requires |s.downloads| == |artifacts| == |remote| && i < |artifacts|
    requires !IsRecorded(s.downloads[i]) && IsRecorded(Play(artifacts, remote, s, move).downloads[i])
    ensures move.task == i && s.downloads[i].Recording? && s.metadata.Some?
    ensures var s', local := Play(artifacts, remote, s, move), s.downloads[i].local;
            && s'.downloads[i].Deleting? && s'.removed == s.removed
            && s'.metadata == Some(Add(s.metadata.value, artifacts[i], local))
  {
  }

  /** ... nothing of it has been deleted, and its record is there. */
  lemma BecomesRecorded(artifacts: seq<ArtifactKey>, remote: seq<seq<TarEntry>>, s: Drain, move: Move, i: nat)
    requires |s.downloads| == |artifacts| == |remote| && i < |artifacts|
    requires DownloadInv(remote[i], i in s.removed, s.downloads[i])
    requires !IsRecorded(s.downloads[i]) && IsRecorded(Play(artifacts, remote, s, move).downloads[i])
    ensures var s' := Play(artifacts, remote, s, move);
            s'.downloads[i].Deleting? && i !in s'.removed && Holds(artifacts, remote, s', i)
  {
    BecomesRecordedHow(artifacts, remote, s, move, i);
    var c := TarChecksum(remote[i]);
    RecordedAfterAdd(s.metadata.value, artifacts[i], c, artifacts[i], c);
  }

  /** Under every failure pattern: whatever has been recorded, and so whatever has been deleted, has a moment at which
      its record was written, at which the metadata held it, and at which no delete had been sent. */
  lemma {:induction false} RecordedBeforeDeleted(artifacts: seq<ArtifactKey>, remote: seq<seq<TarEntry>>,
                                                 metadata: Option<MetadataFile>, moves: seq<Move>, i: nat)
    returns (n: nat)
    requires |artifacts| == |remote| && metadata in [None, Some(NOTHING_RECORDED)] && i < |artifacts|
    requires IsRecorded(PlayAll(artifacts, remote, Start(artifacts, metadata), moves).downloads[i])
    ensures n <= |moves| && JustRecorded(artifacts, remote, metadata, moves[..n], i)
    ensures var s := PlayAll(artifacts, remote, Start(artifacts, metadata), moves[..n]);
            i !in s.removed && Holds(artifacts, remote, s, i)
    decreases |moves|
  {
    var init, last := moves[..|moves| - 1], moves[|moves| - 1];
    var before := PlayAll(artifacts, remote, Start(artifacts, metadata), init);
    if IsRecorded(before.downloads[i]) {
      n := RecordedBeforeDeleted(artifacts, remote, metadata, init, i);
      assert init[..n] == moves[..n];
    } else {
      n := |moves|;
      assert moves[..n] == moves;
      AlwaysDrainInv(artifacts, remote, metadata, init);
      assert DownloadInv(remote[i], i in before.removed, before.downloads[i]);
      BecomesRecorded(artifacts, remote, before, last, i);
    }
  }

  /** Under every failure pattern a remote artifact to which a delete was sent has a local copy whose checksum equalled
      it; that checksum was in the metadata before, when no delete had been sent; and unless a write of the metadata
      broke, it still is. */
  lemma {:induction false} DeletedOnlyAfterRecorded(artifacts: seq<ArtifactKey>, remote: seq<seq<TarEntry>>,
                                 metadata: Option<MetadataFile>, moves: seq<Move>, i: nat)
    requires |artifacts| == |remote| && metadata in [None, Some(NOTHING_RECORDED)]
    requires i in PlayAll(artifacts, remote, Start(artifacts, metadata), moves).removed
    ensures var s := PlayAll(artifacts, remote, Start(artifacts, metadata), moves);
            && i < |artifacts|
            && IsRecorded(s.downloads[i]) && s.downloads[i].local == TarChecksum(remote[i])
            && (!s.broken ==> Holds(artifacts, remote, s, i))
    ensures exists n | 0 <= n <= |moves| ::
              var s := PlayAll(artifacts, remote, Start(artifacts, metadata), moves[..n]);
              && JustRecorded(artifacts, remote, metadata, moves[..n], i)
              && i !in s.removed && Holds(artifacts, remote, s, i)
  {
    AlwaysDrainInv(artifacts, remote, metadata, moves);
    var s := PlayAll(artifacts, remote, Start(artifacts, metadata), moves);
    assert DownloadInv(remote[i], i in s.removed, s.downloads[i]);
    var n := RecordedBeforeDeleted(artifacts, remote, metadata, moves, i);
  }

  // ---------------------------------------------------------------------------------------------
  // Whether it is still there later

  /** The move is a write of the metadata that breaks. */
  predicate BreaksNow(s: Drain, move: Move) {
    && move.task < |s.downloads| && s.downloads[move.task].Recording? && s.metadata.Some?
    && move.answer.Writes? && move.answer.result.Broken?
  }

  /** Some of the moves is one. */
  ghost predicate Breaks(artifacts: seq<ArtifactKey>, remote: seq<seq<TarEntry>>, s: Drain, moves: seq<Move>)
    requires |s.downloads| == |artifacts| == |remote|
  {
    moves != [] &&
    (|| Breaks(artifacts, remote, s, moves[..|moves| - 1])
     || BreaksNow(PlayAll(artifacts, remote, s, moves[..|moves| - 1]), moves[|moves| - 1]))
  }

  lemma PlayKeepsRecord(artifacts: seq<ArtifactKey>, remote: seq<seq<TarEntry>>, s: Drain, move: Move, i: nat)
    requires |s.downloads| == |artifacts| == |remote| && i < |artifacts| && Holds(artifacts, remote, s, i)
    requires !BreaksNow(s, move)
    ensures Holds(artifacts, remote, Play(artifacts, remote, s, move), i)
  {
    var k := move.task;
    if k < |artifacts| && s.downloads[k].Recording? {
      RecordedAfterAdd(s.metadata.value, artifacts[k], s.downloads[k].local, artifacts[i], TarChecksum(remote[i]));
    }
  }

  lemma {:induction false} UnbrokenKeepsRecord(artifacts: seq<ArtifactKey>, remote: seq<seq<TarEntry>>, s: Drain,
                                               moves: seq<Move>, i: nat)
    requires |s.downloads| == |artifacts| == |remote| && i < |artifacts| && Holds(artifacts, remote, s, i)
    requires !Breaks(artifacts, remote, s, moves)
    ensures Holds(artifacts, remote, PlayAll(artifacts, remote, s, moves), i)
  {
    if moves != [] {
      var init, last := moves[..|moves| - 1], moves[|moves| - 1];
      UnbrokenKeepsRecord(artifacts, remote, s, init, i);
      PlayKeepsRecord(artifacts, remote, PlayAll(artifacts, remote, s, init), last, i);
    }
  }

  /** The same moves, in which every write that breaks leaves the given metadata file behind. */
  function LeavingMove(move: Move, leftover: Option<MetadataFile>): Move {
    if move.answer.Writes? && move.answer.result.Broken? then Move(move.task, Writes(Broken(leftover))) else move
  }

  function Leaving(moves: seq<Move>, leftover: Option<MetadataFile>): seq<Move> {
    if moves == [] then []
    else Leaving(moves[..|moves| - 1], leftover) + [LeavingMove(moves[|moves| - 1], leftover)]
  }

  lemma LeavingSameMove(artifacts: seq<ArtifactKey>, remote: seq<seq<TarEntry>>, s: Drain, move: Move,
                        leftover: Option<MetadataFile>)
    requires |s.downloads| == |artifacts| == |remote|
    ensures BreaksNow(s, move) <==> BreaksNow(s, LeavingMove(move, leftover))
    ensures !BreaksNow(s, move) ==>
              Play(artifacts, remote, s, LeavingMove(move, leftover)) == Play(artifacts, remote, s, move)
  {
  }

  /** What breaks does not depend on what is left behind; until then nothing does. */
  lemma {:induction false} LeavingSame(artifacts: seq<ArtifactKey>, remote: seq<seq<TarEntry>>, s: Drain,
                                       moves: seq<Move>, leftover: Option<MetadataFile>)
    requires |s.downloads| == |artifacts| == |remote|
    ensures Breaks(artifacts, remote, s, moves) <==> Breaks(artifacts, remote, s, Leaving(moves, leftover))
    ensures !Breaks(artifacts, remote, s, moves) ==>
              PlayAll(artifacts, remote, s, Leaving(moves, leftover)) == PlayAll(artifacts, remote, s, moves)
  {
    if moves != [] {
      var init, last := moves[..|moves| - 1], moves[|moves| - 1];
      var left := Leaving(init, leftover);
      LeavingSame(artifacts, remote, s, init, leftover);
      assert (left + [LeavingMove(last, leftover)])[..|left|] == left;
      LeavingSameMove(artifacts, remote, PlayAll(artifacts, remote, s, init), last, leftover);
    }
  }

  lemma NothingLeftMove(artifacts: seq<ArtifactKey>, remote: seq<seq<TarEntry>>, s: Drain, move: Move)
    requires |s.downloads| == |artifacts| == |remote|
    requires s.metadata == None || BreaksNow(s, move)
    ensures Play(artifacts, remote, s, LeavingMove(move, None)).metadata == None
  {
  }

  /** A write that leaves nothing behind takes all records with it, for good. */
  lemma {:induction false} BrokenLosesAll(artifacts: seq<ArtifactKey>, remote: seq<seq<TarEntry>>, s: Drain,
                                          moves: seq<Move>)
    requires |s.downloads| == |artifacts| == |remote| && Breaks(artifacts, remote, s, Leaving(moves, None))
    ensures PlayAll(artifacts, remote, s, Leaving(moves, None)).metadata == None
  {
    var init, last := moves[..|moves| - 1], moves[|moves| - 1];
    var left := Leaving(init, None);
    assert (left + [LeavingMove(last, None)])[..|left|] == left;
    var before := PlayAll(artifacts, remote, s, left);
    if Breaks(artifacts, remote, s, left) {
      BrokenLosesAll(artifacts, remote, s, init);
    }
    NothingLeftMove(artifacts, remote, before, last);
  }

  lemma StillThereExactly(artifacts: seq<ArtifactKey>, remote: seq<seq<TarEntry>>, s: Drain, moves: seq<Move>, i: nat)
    requires |s.downloads| == |artifacts| == |remote| && i < |artifacts| && Holds(artifacts, remote, s, i)
    ensures (forall leftover ::
               Holds(artifacts, remote, PlayAll(artifacts, remote, s, Leaving(moves, leftover)), i)) <==>
            !Breaks(artifacts, remote, s, moves)
  {
    if Breaks(artifacts, remote, s, moves) {
      LeavingSame(artifacts, remote, s, moves, None);
      BrokenLosesAll(artifacts, remote, s, moves);
      assert !Holds(artifacts, remote, PlayAll(artifacts, remote, s, Leaving(moves, None)), i);
    } else {
      forall leftover ensures Holds(artifacts, remote, PlayAll(artifacts, remote, s, Leaving(moves, leftover)), i) {
        LeavingSame(artifacts, remote, s, moves, leftover);
        UnbrokenKeepsRecord(artifacts, remote, s, moves, i);
      }
    }
  }

  /** Over every run: after its record was written, and in particular when its delete is sent, a download has its record
      in the metadata, whatever a broken write may leave of the file, exactly when no write broke in between. */
  lemma RecordStaysExactly(artifacts: seq<ArtifactKey>, remote: seq<seq<TarEntry>>, metadata: Option<MetadataFile>,
                           before: seq<Move>, after: seq<Move>, i: nat)
    requires |artifacts| == |remote| && metadata in [None, Some(NOTHING_RECORDED)] && i < |artifacts|
    requires JustRecorded(artifacts, remote, metadata, before, i)
    ensures var start := Start(artifacts, metadata);
            (forall leftover ::
               Holds(artifacts, remote, PlayAll(artifacts, remote, start, before + Leaving(after, leftover)), i)) <==>
            !Breaks(artifacts, remote, PlayAll(artifacts, remote, start, before), after)
  {
    var start := Start(artifacts, metadata);
    var init, last := before[..|before| - 1], before[|before| - 1];
    AlwaysDrainInv(artifacts, remote, metadata, init);
    var recording := PlayAll(artifacts, remote, start, init);
    assert DownloadInv(remote[i], i in recording.removed, recording.downloads[i]);
    BecomesRecorded(artifacts, remote, recording, last, i);
    var s := PlayAll(artifacts, remote, start, before);
    StillThereExactly(artifacts, remote, s, after, i);
    forall leftover
      ensures PlayAll(artifacts, remote, start, before + Leaving(after, leftover)) ==
              PlayAll(artifacts, remote, s, Leaving(after, leftover))
    {
      PlayConcat(artifacts, remote, start, before, Leaving(after, leftover));
    }
  }

  // ---------------------------------------------------------------------------------------------
  // A record that is lost before the delete

  /** Both downloads fetch and compare, the first records, the write of the second breaks, the first deletes. */
  ghost function LosingMoves(remote: seq<seq<TarEntry>>, i: nat, j: nat): seq<Move>
    requires i < |remote| && j < |remote|
  {
    Fetch(i, remote[i]) + Fetch(j, remote[j]) +
    [Move(i, Succeeds), Move(j, Succeeds), Move(i, Writes(Written))] +
    [Move(j, Writes(Broken(None))), Move(i, Succeeds)]
  }

  lemma BothFetched(artifacts: seq<ArtifactKey>, remote: seq<seq<TarEntry>>, i: nat, j: nat)
    requires |artifacts| == |remote| && i < |artifacts| && j < |artifacts| && i != j
    ensures var s := PlayAll(artifacts, remote, Start(artifacts, Some(NOTHING_RECORDED)),
                             Fetch(i, remote[i]) + Fetch(j, remote[j]));
            && s.downloads[i] == Comparing(TarChecksum(remote[i]))
            && s.downloads[j] == Comparing(TarChecksum(remote[j]))
            && s.metadata == Some(NOTHING_RECORDED)
  {
    var start := Start(artifacts, Some(NOTHING_RECORDED));
    PlayConcat(artifacts, remote, start, Fetch(i, remote[i]), Fetch(j, remote[j]));
    FetchResult(artifacts, remote, start, i);
    FetchResult(artifacts, remote, PlayAll(artifacts, remote, start, Fetch(i, remote[i])), j);
  }

  lemma FirstRecords(artifacts: seq<ArtifactKey>, remote: seq<seq<TarEntry>>, s: Drain, i: nat, j: nat)
    requires |s.downloads| == |artifacts| == |remote| && i < |artifacts| && j < |artifacts| && i != j
    requires s.downloads[i] == Comparing(TarChecksum(remote[i])) && s.downloads[j] == Comparing(TarChecksum(remote[j]))
    requires s.metadata.Some?
    ensures var t := PlayAll(artifacts, remote, s, [Move(i, Succeeds), Move(j, Succeeds), Move(i, Writes(Written))]);
            t.downloads[i].Deleting? && t.downloads[j].Recording? && t.metadata.Some?
  {
    PlayThree(artifacts, remote, s, Move(i, Succeeds), Move(j, Succeeds), Move(i, Writes(Written)));
    TarChecksumNoEmptyDigest(remote[i]);
    TarChecksumNoEmptyDigest(remote[j]);
  }

  lemma SecondBreaks(artifacts: seq<ArtifactKey>, remote: seq<seq<TarEntry>>, s: Drain, i: nat, j: nat)
    requires |s.downloads| == |artifacts| == |remote| && i < |artifacts| && j < |artifacts| && i != j
    requires s.downloads[i].Deleting? && s.downloads[j].Recording? && s.metadata.Some?
    ensures var t := PlayAll(artifacts, remote, s, [Move(j, Writes(Broken(None))), Move(i, Succeeds)]);
            i in t.removed && t.metadata == None
  {
    PlayLast(artifacts, remote, s, [], Move(j, Writes(Broken(None))));
    PlayLast(artifacts, remote, s, [Move(j, Writes(Broken(None)))], Move(i, Succeeds));
    assert [] + [Move(j, Writes(Broken(None)))] == [Move(j, Writes(Broken(None)))];
    assert [Move(j, Writes(Broken(None)))] + [Move(i, Succeeds)] == [Move(j, Writes(Broken(None))), Move(i, Succeeds)];
  }

  /** In every drain of two or more artifacts, whatever they hold, one can be deleted although no record is left. */
  lemma DeletedWithoutRecord(artifacts: seq<ArtifactKey>, remote: seq<seq<TarEntry>>, i: nat, j: nat)
    requires |artifacts| == |remote| && i < |artifacts| && j < |artifacts| && i != j
    ensures var s := PlayAll(artifacts, remote, Start(artifacts, Some(NOTHING_RECORDED)), LosingMoves(remote, i, j));
            i in s.removed && s.metadata == None
  {
    var start := Start(artifacts, Some(NOTHING_RECORDED));
    var fetch := Fetch(i, remote[i]) + Fetch(j, remote[j]);
    var settle := [Move(i, Succeeds), Move(j, Succeeds), Move(i, Writes(Written))];
    var end := [Move(j, Writes(Broken(None))), Move(i, Succeeds)];
    PlayConcat(artifacts, remote, start, fetch + settle, end);
    PlayConcat(artifacts, remote, start, fetch, settle);
    BothFetched(artifacts, remote, i, j);
    var fetched := PlayAll(artifacts, remote, start, fetch);
    FirstRecords(artifacts, remote, fetched, i, j);
    SecondBreaks(artifacts, remote, PlayAll(artifacts, remote, fetched, settle), i, j);
  }

  // ---------------------------------------------------------------------------------------------
  // A download that meets a failure

  /** The answer to the next operation of a download is a failure: an error, a stream that breaks off, a record that
      cannot be written. */
  predicate GoesWrong(s: Drain, move: Move) {
    && move.task < |s.downloads|
    && var p := s.downloads[move.task];
       match move.answer
       case Fails => !p.Done? && !p.DeleteFailed? && !p.Failed?
       case Streams(_, streamed) => p.Streaming? && streamed.Cut?
       case Writes(result) => p.Recording? && (s.metadata.None? || result.Broken?)
       case Succeeds => false
  }

  lemma GoesWrongFails(artifacts: seq<ArtifactKey>, remote: seq<seq<TarEntry>>, s: Drain, move: Move)
    requires |s.downloads| == |artifacts| == |remote| && GoesWrong(s, move)
    ensures var s', i := Play(artifacts, remote, s, move), move.task;
            && (if s.downloads[i].Deleting? then s'.downloads[i].DeleteFailed? else s'.downloads[i].Failed?)
            && (!s.downloads[i].Deleting? ==> s'.removed == s.removed)
  {
  }

  lemma {:induction false} OverStays(artifacts: seq<ArtifactKey>, remote: seq<seq<TarEntry>>, s: Drain,
                                     moves: seq<Move>, i: nat)
    requires |s.downloads| == |artifacts| == |remote| && i < |artifacts|
    requires s.downloads[i].Failed? || s.downloads[i].DeleteFailed?
    ensures var t := PlayAll(artifacts, remote, s, moves);
            t.downloads[i] == s.downloads[i] && (i in t.removed <==> i in s.removed)
  {
    if moves != [] {
      OverStays(artifacts, remote, s, moves[..|moves| - 1], i);
      OverStaysMove(artifacts, remote, PlayAll(artifacts, remote, s, moves[..|moves| - 1]), moves[|moves| - 1], i);
    }
  }

  lemma OverStaysMove(artifacts: seq<ArtifactKey>, remote: seq<seq<TarEntry>>, s: Drain, move: Move, i: nat)
    requires |s.downloads| == |artifacts| == |remote| && i < |artifacts|
    requires s.downloads[i].Failed? || s.downloads[i].DeleteFailed?
    ensures var t := Play(artifacts, remote, s, move);
            t.downloads[i] == s.downloads[i] && (i in t.removed <==> i in s.removed)
  {
  }

  lemma FailsFromThere(artifacts: seq<ArtifactKey>, remote: seq<seq<TarEntry>>, s: Drain, move: Move, after: seq<Move>)
    requires |s.downloads| == |artifacts| == |remote| && GoesWrong(s, move)
    requires DownloadInv(remote[move.task], move.task in s.removed, s.downloads[move.task])
    ensures var t := PlayAll(artifacts, remote, Play(artifacts, remote, s, move), after);
            if s.downloads[move.task].Deleting? then t.downloads[move.task].DeleteFailed?
            else t.downloads[move.task].Failed? && move.task !in t.removed
  {
    GoesWrongFails(artifacts, remote, s, move);
    OverStays(artifacts, remote, Play(artifacts, remote, s, move), after, move.task);
  }

  /** Over every run: a download that once meets a failure never succeeds; and if that was before its delete, nothing is
      recorded for it and nothing of it is deleted. */
  lemma FailureIsFinal(artifacts: seq<ArtifactKey>, remote: seq<seq<TarEntry>>, metadata: Option<MetadataFile>,
                       before: seq<Move>, move: Move, after: seq<Move>)
    requires |artifacts| == |remote| && metadata in [None, Some(NOTHING_RECORDED)]
    requires GoesWrong(PlayAll(artifacts, remote, Start(artifacts, metadata), before), move)
    ensures var s := PlayAll(artifacts, remote, Start(artifacts, metadata), before);
            var t := PlayAll(artifacts, remote, Start(artifacts, metadata), before + [move] + after);
            if s.downloads[move.task].Deleting? then t.downloads[move.task].DeleteFailed?
            else t.downloads[move.task].Failed? && move.task !in t.removed
  {
    var start := Start(artifacts, metadata);
    var s := PlayAll(artifacts, remote, start, before);
    AlwaysDrainInv(artifacts, remote, metadata, before);
    assert DownloadInv(remote[move.task], move.task in s.removed, s.downloads[move.task]);
    FailsFromThere(artifacts, remote, s, move, after);
    Composed(artifacts, remote, start, before, move, after);
  }

  lemma UnrecordedIs(artifacts: seq<ArtifactKey>, remote: seq<seq<TarEntry>>, t: Drain, i: nat, checksum: Checksum)
    requires |t.downloads| == |artifacts| == |remote| && i < |artifacts|
    requires DrainInv(artifacts, remote, t) && t.downloads[i].Failed?
    requires forall j | 0 <= j < |artifacts| && j != i :: artifacts[j] != artifacts[i]
    ensures !t.broken && t.metadata.Some? ==> !Recorded(t.metadata.value, artifacts[i], checksum)
  {
    assert !t.broken ==> RecordsInv(artifacts, remote, t);
    assert !IsRecorded(t.downloads[i]);
  }

  /** Neither is a checksum recorded under its identifier, if that is its own and no write broke. */
  lemma FailureIsNotRecorded(artifacts: seq<ArtifactKey>, remote: seq<seq<TarEntry>>, metadata: Option<MetadataFile>,
                             before: seq<Move>, move: Move, after: seq<Move>, checksum: Checksum)
    requires |artifacts| == |remote| && metadata in [None, Some(NOTHING_RECORDED)]
    requires var s := PlayAll(artifacts, remote, Start(artifacts, metadata), before);
             GoesWrong(s, move) && !s.downloads[move.task].Deleting?
    requires forall j | 0 <= j < |artifacts| && j != move.task :: artifacts[j] != artifacts[move.task]
    ensures var t := PlayAll(artifacts, remote, Start(artifacts, metadata), before + [move] + after);
            !t.broken && t.metadata.Some? ==> !Recorded(t.metadata.value, artifacts[move.task], checksum)
  {
    FailureIsFinal(artifacts, remote, metadata, before, move, after);
    AlwaysDrainInv(artifacts, remote, metadata, before + [move] + after);
    UnrecordedIs(artifacts, remote, PlayAll(artifacts, remote, Start(artifacts, metadata), before + [move] + after),
                 move.task, checksum);
  }

  lemma Composed(artifacts: seq<ArtifactKey>, remote: seq<seq<TarEntry>>, start: Drain, before: seq<Move>, move: Move,
                 after: seq<Move>)
    requires |start.downloads| == |artifacts| == |remote|
    ensures PlayAll(artifacts, remote, start, before + [move] + after) ==
            PlayAll(artifacts, remote, Play(artifacts, remote, PlayAll(artifacts, remote, start, before), move), after)
  {
    PlayConcat(artifacts, remote, start, before + [move], after);
    PlayLast(artifacts, remote, start, before, move);
  }

  // ---------------------------------------------------------------------------------------------
  // Without a metadata file

  lemma NoMetadataMove(artifacts: seq<ArtifactKey>, remote: seq<seq<TarEntry>>, s: Drain, move: Move, i: nat)
    requires |s.downloads| == |artifacts| == |remote| && i < |artifacts|
    requires s.metadata == None && !IsRecorded(s.downloads[i])
    ensures var t := Play(artifacts, remote, s, move);
            t.metadata == None && !IsRecorded(t.downloads[i])
  {
  }

  /** If there is no metadata file to begin with, no download ever succeeds. */
  lemma {:induction false} NoMetadataNoRecord(artifacts: seq<ArtifactKey>, remote: seq<seq<TarEntry>>, moves: seq<Move>,
                                              i: nat)
    requires |artifacts| == |remote| && i < |artifacts|
    ensures var t := PlayAll(artifacts, remote, Start(artifacts, None), moves);
            t.metadata == None && !IsRecorded(t.downloads[i])
  {
    if moves != [] {
      NoMetadataNoRecord(artifacts, remote, moves[..|moves| - 1], i);
      NoMetadataMove(artifacts, remote, PlayAll(artifacts, remote, Start(artifacts, None), moves[..|moves| - 1]),
                     moves[|moves| - 1], i);
    }
  }
}
